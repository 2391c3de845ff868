/** The three routes of app.py with extraction, embeddings, the vector index
    and the language model abstracted: what each answers for a request and
    a server state, and how `upload_pdf` replaces the processed document. */
module Backend {
  import opened Wrappers
  import opened Strings
  import opened Chunking
  import Gateway

  /** The JSON bodies the routes return. */
  datatype Body =
    | ErrorBody(error: string)
    | UploadedBody(message: string, filename: string)
    | AnswerBody(answer: string, contextUsed: seq<string>)
    | SummaryBody(summary: string)

  /** A reply: HTTP status and body. */
  datatype Response = Response(status: nat, body: Body)

  function ErrorResponse(status: nat, message: string): Response {
    Response(status, ErrorBody(message))
  }

  /** An error reply as a route returns it: status 400 or 500, non-empty message. */
  predicate IsErrorReply(r: Response) {
    (r.status == 400 || r.status == 500) && r.body.ErrorBody? && r.body.error != ""
  }

  /** The part named `file` of a multipart upload. */
  datatype UploadedFile = UploadedFile(filename: string)

  const ModelMissingForUpload := "Embedding model not loaded. Please check backend startup logs."
  const ModelMissingForQuery := "Embedding model not loaded. Cannot process query."
  /** The number of nearest chunks `ask_question` asks the index for, at most. */
  const SearchResults := 5

  const NoDocument := "No document processed yet. Please upload a PDF first."

  /** The checks `upload_pdf` makes before touching the file, in their order.
      None means the upload goes on to processing. */
  function UploadGuard(modelLoaded: bool, file: Option<UploadedFile>): (r: Option<Response>)
    ensures r.None? <==>
      modelLoaded && file.Some? && file.value.filename != "" && EndsWith(file.value.filename, ".pdf")
    ensures r.Some? ==> IsErrorReply(r.value)
    ensures !modelLoaded ==> r == Some(ErrorResponse(500, ModelMissingForUpload))
    ensures modelLoaded && file.None? ==> r == Some(ErrorResponse(400, "No file part"))
    ensures modelLoaded && file.Some? && file.value.filename == "" ==>
      r == Some(ErrorResponse(400, "No selected file"))
    ensures modelLoaded && file.Some? && file.value.filename != "" && !EndsWith(file.value.filename, ".pdf") ==>
      r == Some(ErrorResponse(400, "Invalid file type. Only PDF files are allowed."))
  {
    if !modelLoaded then Some(ErrorResponse(500, ModelMissingForUpload))
    else if file.None? then Some(ErrorResponse(400, "No file part"))
    else if file.value.filename == "" then Some(ErrorResponse(400, "No selected file"))
    else if EndsWith(file.value.filename, ".pdf") then None
    else Some(ErrorResponse(400, "Invalid file type. Only PDF files are allowed."))
  }

  /** The checks `ask_question` makes before searching, in their order:
      a processed document, the embedding model, a query that is present
      and not empty. None means the search goes ahead. */
  function AskGuard(indexBuilt: bool, hasChunks: bool, modelLoaded: bool, query: Option<string>): (r: Option<Response>)
    ensures r.None? <==> indexBuilt && hasChunks && modelLoaded && query.Some? && query.value != ""
    ensures r.Some? ==> IsErrorReply(r.value)
    ensures !(indexBuilt && hasChunks) ==> r == Some(ErrorResponse(400, NoDocument))
    ensures indexBuilt && hasChunks && !modelLoaded ==> r == Some(ErrorResponse(500, ModelMissingForQuery))
    ensures indexBuilt && hasChunks && modelLoaded && query.GetOr("") == "" ==>
      r == Some(ErrorResponse(400, "No query provided."))
  {
    if !indexBuilt || !hasChunks then Some(ErrorResponse(400, NoDocument))
    else if !modelLoaded then Some(ErrorResponse(500, ModelMissingForQuery))
    else if query.None? || query.value == "" then Some(ErrorResponse(400, "No query provided."))
    else None
  }

  /** `[document_chunks[i] for i in indices]`. */
  function Select(chunks: seq<string>, hits: seq<nat>): (context: seq<string>)
    requires forall i :: 0 <= i < |hits| ==> hits[i] < |chunks|
    ensures |context| == |hits|
    ensures forall i :: 0 <= i < |hits| ==> context[i] == chunks[hits[i]]
  {
    seq(|hits|, i requires 0 <= i < |hits| => chunks[hits[i]])
  }

  /** The fixed text of the question prompt, around the context and the query. */
  const AskPromptHead := "You are an AI assistant that answers questions based on the provided document context.\n"
    + "If the answer is not explicitly in the context, state that you cannot find the information in the document.\n\n"
    + "Document Context:\n\""
  const AskPromptMiddle := "\"\n\nQuestion: \""
  const AskPromptTail := "\"\nAnswer:"

  function AskPrompt(context: string, query: string): string {
    AskPromptHead + context + AskPromptMiddle + query + AskPromptTail
  }

  /** The fixed text of the summary prompt, around the document. */
  const SummaryPromptHead := "Summarize the following document, highlighting key takeaways, payment terms, and parties involved.\n"
    + "    Document:\n    \""
  const SummaryPromptTail := "\"\n    Summary:"

  function SummaryPrompt(document: string): string {
    SummaryPromptHead + document + SummaryPromptTail
  }

  /** `document_metadata` after a successful upload. */
  datatype Metadata = Metadata(filename: string, numChunks: nat, fullTextLength: nat)

  /** The module-level state of app.py. `indexSize` stands for `faiss_index`:
      None, or an index holding one vector per chunk of that many chunks. */
  class Server {
    var embeddingModelLoaded: bool
    var documentChunks: seq<string>
    var indexSize: Option<nat>
    var metadata: Option<Metadata>

    /** A built index belongs to the stored chunks, which are not empty and
        which the metadata counts. */
    ghost predicate Valid()
      reads this
    {
      indexSize.Some? ==>
        && documentChunks != []
        && indexSize.value == |documentChunks|
        && metadata.Some? && metadata.value.numChunks == |documentChunks|
    }

    /** Start-up: whether the embedding model loaded, and no document. */
    constructor (modelLoaded: bool)
      ensures Valid()
      ensures embeddingModelLoaded == modelLoaded
      ensures documentChunks == [] && indexSize.None? && metadata.None?
    {
      embeddingModelLoaded := modelLoaded;
      documentChunks := [];
      indexSize := None;
      metadata := None;
    }

    /** `upload_pdf`. `extractedText` is what the PDF extractor returned ("" when
        it failed), `encode`/`decode` the tokenizer, and `embeddingError` the
        message of the exception the embedding model raised, if it raised. Every
        error reply leaves the state as it was; a success replaces chunks,
        index and metadata together. */
    method UploadPdf(file: Option<UploadedFile>, extractedText: string,
                     encode: string -> seq<int>, decode: seq<int> -> string,
                     embeddingError: Option<string>)
      returns (response: Response)
      requires Valid()
      modifies this`documentChunks, this`indexSize, this`metadata
      ensures Valid()
      ensures response.status != 200 ==> IsErrorReply(response) && unchanged(this)
      ensures UploadGuard(embeddingModelLoaded, file).Some? ==>
        response == UploadGuard(embeddingModelLoaded, file).value
      ensures UploadGuard(embeddingModelLoaded, file).None? ==>
        var chunks := ChunkedText(extractedText, encode, decode, MaxChunkTokens, ChunkOverlapTokens);
        && (extractedText == "" ==> response == ErrorResponse(400, "Could not extract text from PDF."))
        && (extractedText != "" && chunks == [] ==> response == ErrorResponse(400, "Could not chunk text from PDF."))
        && (extractedText != "" && chunks != [] && embeddingError.Some? ==>
              response == ErrorResponse(500, "Internal server error during PDF processing: " + embeddingError.value))
        && (extractedText != "" && chunks != [] && embeddingError.None? ==>
              && response == Response(200, UploadedBody("PDF processed successfully", file.value.filename))
              && documentChunks == chunks
              && indexSize == Some(|chunks|)
              && metadata == Some(Metadata(file.value.filename, |chunks|, |extractedText|)))
    {
      var guard := UploadGuard(embeddingModelLoaded, file);
      if guard.Some? {
        return guard.value;
      }
      var filename := file.value.filename;
      if extractedText == "" {
        return ErrorResponse(400, "Could not extract text from PDF.");
      }
      var chunks := ChunkTextByTokens(extractedText, encode, decode, MaxChunkTokens, ChunkOverlapTokens);
      if chunks == [] {
        return ErrorResponse(400, "Could not chunk text from PDF.");
      }
      if embeddingError.Some? {
        return ErrorResponse(500, "Internal server error during PDF processing: " + embeddingError.value);
      }
      indexSize := Some(|chunks|);
      documentChunks := chunks;
      metadata := Some(Metadata(filename, |chunks|, |extractedText|));
      response := Response(200, UploadedBody("PDF processed successfully", filename));
    }

    /** `ask_question`. `queryEmbeddingError` is the message of the exception
        the embedding model raised for the query, if it raised. `search(k)` is
        the nearest-neighbour search of the query embedding in the index for
        the `k` nearest vectors; since `k` never exceeds the vectors stored,
        it returns `k` of them, each naming a vector of the index (Valid ties
        the index to the stored chunks, so each hit names a stored chunk).
        `generate` is the language model, which answers every prompt with a
        text (its own error text included). The route asks for
        `min(5, len(chunks))` hits, and the context used is the hit chunks
        in hit order, joined by blank lines into the prompt. */
    function AskQuestion(query: Option<string>, queryEmbeddingError: Option<string>,
                         search: nat -> seq<nat>, generate: string -> string): (r: Response)
      reads this
      requires Valid()
      requires indexSize.Some? ==>
        var hits := search(Min(SearchResults, |documentChunks|));
        && |hits| == Min(SearchResults, |documentChunks|)
        && forall i :: 0 <= i < |hits| ==> hits[i] < indexSize.value
      ensures r.status == 200 || IsErrorReply(r)
      ensures r.status == 200 <==>
        AskGuard(indexSize.Some?, documentChunks != [], embeddingModelLoaded, query).None? && queryEmbeddingError.None?
      ensures AskGuard(indexSize.Some?, documentChunks != [], embeddingModelLoaded, query).Some? ==>
        r == AskGuard(indexSize.Some?, documentChunks != [], embeddingModelLoaded, query).value
      ensures AskGuard(indexSize.Some?, documentChunks != [], embeddingModelLoaded, query).None? && queryEmbeddingError.Some? ==>
        r == ErrorResponse(500, "Internal server error during question answering: " + queryEmbeddingError.value)
      ensures r.status == 200 ==>
        var hits := search(Min(SearchResults, |documentChunks|));
        && r.body.AnswerBody?
        && |r.body.contextUsed| == Min(SearchResults, |documentChunks|) == |hits|
        && (forall i :: 0 <= i < |hits| ==> hits[i] < |documentChunks| && r.body.contextUsed[i] == documentChunks[hits[i]])
        && r.body.answer == generate(AskPrompt(Join(r.body.contextUsed, "\n\n"), query.value))
    {
      match AskGuard(indexSize.Some?, documentChunks != [], embeddingModelLoaded, query)
      case Some(rejection) => rejection
      case None =>
        if queryEmbeddingError.Some? then
          ErrorResponse(500, "Internal server error during question answering: " + queryEmbeddingError.value)
        else
          var k := Min(SearchResults, |documentChunks|);
          var indices := search(k);
          var relevantContext := Select(documentChunks, indices);
          var contextStr := Join(relevantContext, "\n\n");
          Response(200, AnswerBody(generate(AskPrompt(contextStr, query.value)), relevantContext))
    }

    /** `get_summary`: a processed document is required; its chunks are joined
        by single spaces, and that text is empty exactly when the document is
        one empty chunk. The language model never raises, so the route has no
        500 reply. */
    function GetSummary(generate: string -> string): (r: Response)
      reads this
      ensures r.status == 200 || IsErrorReply(r)
      ensures !(indexSize.Some? && documentChunks != []) ==> r == ErrorResponse(400, NoDocument)
      ensures indexSize.Some? && documentChunks != [] ==>
        (r == ErrorResponse(400, "Document content is empty for summarization.") <==> documentChunks == [""])
      ensures r.status == 200 <==> indexSize.Some? && documentChunks != [] && documentChunks != [""]
      ensures r.status == 200 ==> r == Response(200, SummaryBody(generate(SummaryPrompt(Join(documentChunks, " ")))))
    {
      if indexSize.None? || documentChunks == [] then ErrorResponse(400, NoDocument)
      else
        var fullDocumentForSummary := Join(documentChunks, " ");
        JoinEmptyIff(documentChunks, " ");
        if fullDocumentForSummary == "" then ErrorResponse(400, "Document content is empty for summarization.")
        else Response(200, SummaryBody(generate(SummaryPrompt(fullDocumentForSummary))))
    }
  }

  /** What the client shows for an error reply of these routes is exactly the
      server's message: the message is never empty, so the HTTP-status
      fallback is never taken. */
  lemma ClientShowsServerMessage(r: Response)
    requires IsErrorReply(r)
    ensures Gateway.ErrorMessage(Gateway.HttpError(r.status, Some(r.body.error))) == r.body.error
  {
  }
}
