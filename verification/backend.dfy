/**
 * The backend's request pipeline: the summarize endpoint (validate, summarize,
 * embed, store, respond), the history endpoint (count, peek, drop the
 * embeddings) and the health check. The summarization and embedding models
 * are oracles held by `Models`; the store is a `VectorStore.Collection`.
 */
module Backend {
  import opened Wrappers
  import opened PyStr
  import opened VectorStore

  /** The body of a summarize request. */
  datatype TextRequest = TextRequest(text: string)

  /** The generation arguments the summarizer is called with. */
  datatype GenerationConfig = GenerationConfig(maxLength: nat, minLength: nat, doSample: bool)

  /** `max_length=130, min_length=30, do_sample=False`. */
  const SummaryConfig := GenerationConfig(130, 30, false)

  /** The summarization pipeline's output: a list of dicts, each with a "summary_text" entry. */
  type SummaryOutput = seq<map<string, string>>

  /** The summarization model: its output for a text and configuration, or the error it raises. */
  type Summarizer = (string, GenerationConfig) -> Result<SummaryOutput, string>

  /** The embedding model: the vector it encodes a text to, or the error it raises. */
  type Embedder = string -> Result<Vector, string>

  /** A call into one of the two models, with the text it was given. */
  datatype Invocation =
    | SummarizerCall(text: string, config: GenerationConfig)
    | EmbedderCall(text: string)

  /** A response of the summarize endpoint: the saved summary, or an HTTP error. */
  datatype Response =
    | Saved(summary: string, id: string, message: string)
    | HttpError(status: nat, detail: string)

  const SavedMessage := "Saved to Vector DB"

  /** The client error for a text that is empty after stripping. */
  const EmptyTextError := HttpError(400, "Text cannot be empty")

  /** The number of records the history endpoint asks the store for. */
  const HistoryLimit: nat := 10

  /** The body of the health check. */
  datatype Health = Health(status: string, modelsLoaded: bool)

  /** The value under "history": an empty list, or the sanitized peek result. */
  datatype HistoryBody = EmptyHistory | Entries(results: map<string, Column>)

  /** The health check reports that the models are loaded. */
  function HealthCheck(): (h: Health)
    ensures h.modelsLoaded
  {
    Health("Backend is running", true)
  }

  /**
   * Request validation: the stripped text when something is left of it, the
   * 400 response when the text is whitespace only.
   */
  function Validate(request: TextRequest): (r: Result<string, Response>)
    ensures r.Failure? <==> AllSpace(request.text)
    ensures r.Failure? ==> r.error == EmptyTextError
    ensures r.Success? ==> r.value == Strip(request.text) && r.value != []
    ensures r.Success? ==> !IsSpace(r.value[0]) && !IsSpace(r.value[|r.value| - 1])
  {
    var input := Strip(request.text);
    if input == [] then Failure(EmptyTextError) else Success(input)
  }

  /**
   * `summary_result[0]['summary_text']`: the summary of the first output, or
   * the text of the IndexError or KeyError Python raises when it is missing.
   */
  function SummaryText(output: SummaryOutput): (r: Result<string, string>)
    ensures r.Success? <==> |output| > 0 && "summary_text" in output[0]
    ensures r.Success? ==> r.value == output[0]["summary_text"]
    ensures |output| == 0 ==> r == Failure("list index out of range")
    ensures |output| > 0 && "summary_text" !in output[0] ==> r == Failure("'summary_text'")
  {
    if |output| == 0 then Failure("list index out of range")
    else if "summary_text" !in output[0] then Failure("'summary_text'")
    else Success(output[0]["summary_text"])
  }

  /** What one summarize request does: its response, the model calls, the records written. */
  datatype Effect = Effect(response: Response, calls: seq<Invocation>, added: seq<Record>)

  /**
   * The guarded part of the summarize endpoint, run on the validated text
   * `input`: summarize, embed, store and respond, as a function of what its
   * collaborators do (the models' outputs, the id `uuid4` would mint and the
   * error, if any, the store's `add` raises). Any error becomes a 500.
   */
  function Pipeline(input: string, summarizer: Summarizer, embedder: Embedder, docId: string, addFault: Option<string>)
    : (e: Effect)
    // The summarizer is called first, and every model sees `input`.
    ensures 1 <= |e.calls| <= 2 && e.calls[0] == SummarizerCall(input, SummaryConfig)
    ensures forall k :: 0 <= k < |e.calls| ==> e.calls[k].text == input
    // A summarizer failure, or an output without a summary, is a 500 with its text; the embedder is not called.
    ensures summarizer(input, SummaryConfig).Failure? ==>
              e.response == HttpError(500, summarizer(input, SummaryConfig).error) && |e.calls| == 1
    ensures summarizer(input, SummaryConfig).Success? && SummaryText(summarizer(input, SummaryConfig).value).Failure? ==>
              e.response == HttpError(500, SummaryText(summarizer(input, SummaryConfig).value).error) &&
              |e.calls| == 1
    // Once a summary is extracted, the embedder is called second.
    ensures summarizer(input, SummaryConfig).Success? && SummaryText(summarizer(input, SummaryConfig).value).Success? ==>
              |e.calls| == 2 && e.calls[1] == EmbedderCall(input)
    ensures |e.calls| == 2 && embedder(input).Failure? ==>
              e.response == HttpError(500, embedder(input).error)
    ensures |e.calls| == 2 && embedder(input).Success? && addFault.Some? ==>
              e.response == HttpError(500, addFault.value)
    // When every step succeeds, the first summary is saved and returned.
    ensures summarizer(input, SummaryConfig).Success? && SummaryText(summarizer(input, SummaryConfig).value).Success? &&
            embedder(input).Success? && addFault.None? ==>
              e.response == Saved(SummaryText(summarizer(input, SummaryConfig).value).value, docId, SavedMessage)
    // A saved response comes with exactly one record written, agreeing with it and with the models' outputs.
    ensures |e.added| <= 1
    ensures e.response.Saved? <==> e.added != []
    ensures e.response.Saved? ==>
              && e.response.summary == SummaryText(summarizer(input, SummaryConfig).value).value
              && e.response.id == docId
              && e.response.message == SavedMessage
              && embedder(input) == Success(e.added[0].embedding)
              && e.added == [Record(docId, e.added[0].embedding, input, map["summary" := e.response.summary])]
    ensures e.response.HttpError? ==> e.added == [] && e.response.status == 500
  {
    var summarized := [SummarizerCall(input, SummaryConfig)];
    match summarizer(input, SummaryConfig)
    case Failure(err) => Effect(HttpError(500, err), summarized, [])
    case Success(output) =>
      match SummaryText(output)
      case Failure(err) => Effect(HttpError(500, err), summarized, [])
      case Success(summary) =>
        var calls := summarized + [EmbedderCall(input)];
        match embedder(input)
        case Failure(err) => Effect(HttpError(500, err), calls, [])
        case Success(embedding) =>
          if addFault.Some? then Effect(HttpError(500, addFault.value), calls, [])
          else
            Effect(Saved(summary, docId, SavedMessage), calls,
                   [Record(docId, embedding, input, map["summary" := summary])])
  }

  /**
   * The summarize endpoint: whitespace-only text gets the 400 response and
   * nothing else happens; any other text goes through `Pipeline` stripped.
   */
  function Submission(text: string, summarizer: Summarizer, embedder: Embedder, docId: string, addFault: Option<string>)
    : (e: Effect)
    ensures e.response == EmptyTextError <==> AllSpace(text)
    ensures AllSpace(text) ==> e.calls == [] && e.added == []
    ensures !AllSpace(text) ==> e == Pipeline(Strip(text), summarizer, embedder, docId, addFault)
    ensures e.response.HttpError? ==> e.added == [] && (e.response.status == 400 || e.response.status == 500)
  {
    match Validate(TextRequest(text))
    case Failure(rejected) => Effect(rejected, [], [])
    case Success(input) => Pipeline(input, summarizer, embedder, docId, addFault)
  }

  /**
   * A successful submission can be read back: looking its id up in the
   * store it left finds the stripped text and the summary it returned, and
   * every other id looks up as before.
   */
  lemma SubmissionRoundTrip(records: seq<Record>, text: string, summarizer: Summarizer, embedder: Embedder,
                            docId: string, addFault: Option<string>, other: string)
    requires docId !in IdsOf(records)
    ensures var e := Submission(text, summarizer, embedder, docId, addFault);
            e.response.Saved? ==>
              && Lookup(records + e.added, e.response.id).Some?
              && Lookup(records + e.added, e.response.id).value.document == Strip(text)
              && Lookup(records + e.added, e.response.id).value.metadata == map["summary" := e.response.summary]
              && (other != docId ==> Lookup(records + e.added, other) == Lookup(records, other))
  {
    var e := Submission(text, summarizer, embedder, docId, addFault);
    if e.response.Saved? {
      LookupAfterAdd(records, e.added[0]);
      if other != docId {
        LookupOtherAfterAdd(records, e.added[0], other);
      }
    }
  }

  /** `del results['embeddings']` when the key is there: every other entry is kept as it was. */
  function Sanitized(results: map<string, Column>): (r: map<string, Column>)
    ensures "embeddings" !in r
    ensures r.Keys == results.Keys - {"embeddings"}
    ensures forall key :: key in r ==> r[key] == results[key]
  {
    if "embeddings" in results then results - {"embeddings"} else results
  }

  /**
   * The history endpoint as a function of the stored records: the empty list
   * for an empty store, and otherwise the ids, documents and metadata of the
   * first (at most) ten records in store order, without their embeddings.
   */
  function History(records: seq<Record>): (h: HistoryBody)
    ensures h.EmptyHistory? <==> records == []
    ensures h.Entries? ==> h.results.Keys == {"ids", "documents", "metadatas"}
    ensures h.Entries? ==> RowsMatch(h.results, records[..Min(|records|, HistoryLimit)])
    ensures h.Entries? ==> 1 <= |h.results["ids"].ids| <= HistoryLimit
  {
    if |records| == 0 then EmptyHistory
    else Entries(Sanitized(PeekResult(records, HistoryLimit)))
  }

  /** The two models, and a log of the calls made into them. */
  class Models {
    const summarizer: Summarizer
    const embedder: Embedder
    ghost var calls: seq<Invocation>

    constructor (summarizer: Summarizer, embedder: Embedder)
      ensures this.summarizer == summarizer && this.embedder == embedder && calls == []
    {
      this.summarizer := summarizer;
      this.embedder := embedder;
      calls := [];
    }

    /** `summarizer(text, max_length=..., min_length=..., do_sample=...)`. */
    method Summarize(text: string, config: GenerationConfig) returns (r: Result<SummaryOutput, string>)
      modifies this
      ensures r == summarizer(text, config) && calls == old(calls) + [SummarizerCall(text, config)]
    {
      r := summarizer(text, config);
      calls := calls + [SummarizerCall(text, config)];
    }

    /** `embedder.encode(text).tolist()`. */
    method Encode(text: string) returns (r: Result<Vector, string>)
      modifies this
      ensures r == embedder(text) && calls == old(calls) + [EmbedderCall(text)]
    {
      r := embedder(text);
      calls := calls + [EmbedderCall(text)];
    }
  }

  /** The backend application, holding the handles it sets up at startup. */
  class Service {
    const models: Models
    const collection: Collection

    constructor (models: Models, collection: Collection)
      ensures this.models == models && this.collection == collection
    {
      this.models := models;
      this.collection := collection;
    }

    /**
     * POST /summarize. `docId` is the id `uuid4` mints, taken to be fresh;
     * `addFault` is the error the store's `add` raises, if it does.
     */
    method SummarizeText(request: TextRequest, docId: string, addFault: Option<string>) returns (response: Response)
      requires collection.Valid() && docId !in collection.Ids()
      modifies models, collection
      ensures collection.Valid() && collection.peeks == old(collection.peeks)
      ensures var e := Submission(request.text, models.summarizer, models.embedder, docId, addFault);
              && response == e.response
              && models.calls == old(models.calls) + e.calls
              && collection.records == old(collection.records) + e.added
    {
      var validated := Validate(request);
      if validated.Failure? {
        return validated.error;
      }
      var inputText := validated.value;

      var summaryResult := models.Summarize(inputText, SummaryConfig);
      if summaryResult.Failure? {
        return HttpError(500, summaryResult.error);
      }
      var summaryText := SummaryText(summaryResult.value);
      if summaryText.Failure? {
        return HttpError(500, summaryText.error);
      }

      var embedding := models.Encode(inputText);
      if embedding.Failure? {
        return HttpError(500, embedding.error);
      }

      var added := collection.Add(docId, embedding.value, inputText, map["summary" := summaryText.value], addFault);
      if added.Fail? {
        return HttpError(500, added.error);
      }
      response := Saved(summaryText.value, docId, SavedMessage);
    }

    /**
     * GET /history. An empty store answers the empty list without a peek;
     * otherwise ten records are peeked and their embeddings dropped. The
     * store's records are left as they were.
     */
    method GetHistory() returns (body: HistoryBody)
      modifies collection
      ensures collection.records == old(collection.records)
      ensures body == History(collection.records)
      ensures collection.records == [] ==> collection.peeks == old(collection.peeks)
      ensures collection.records != [] ==> collection.peeks == old(collection.peeks) + [HistoryLimit]
    {
      var count := collection.Count();
      if count == 0 {
        return EmptyHistory;
      }
      var results := collection.Peek(HistoryLimit);
      if "embeddings" in results {
        results := results - {"embeddings"};
      }
      body := Entries(results);
    }
  }
}
