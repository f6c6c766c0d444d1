# Summarizer backend: request pipeline model

A Dafny model of the backend of an AI text summarizer. The backend has two
endpoints that make decisions:

- `POST /summarize` strips the request text and rejects it with status 400
  when nothing is left. Otherwise it summarizes the stripped text, embeds it,
  mints an id and adds one record (id, embedding, document and
  `{"summary": ...}` metadata) to a vector-store collection. It answers
  `{summary, id, message: "Saved to Vector DB"}`. Any error raised on the way
  becomes status 500 carrying the error's text.
- `GET /history` counts the collection. An empty collection gives
  `{"history": []}` without reading anything. Otherwise it peeks at up to ten
  records and removes the `embeddings` entry before answering.

`GET /` answers a constant health record.

Layout:

- `wrappers.dfy`: `Option`, `Result` and `Outcome`.
- `pystr.dfy`: Python's `str.isspace` and `str.strip()`. Whitespace is the
  code-point set Python uses, not an abstract predicate.
- `vector_store.dfy`: records, the columns of a peek result, and the
  `Collection` class with `Count`, `Add` and `Peek`. `Lookup` is a reference
  lookup by id, used to state the read-back property.
- `backend.dfy`: the request and response types, and the summarize endpoint
  as pure functions of its collaborators' outcomes (`Pipeline` for the
  guarded steps, `Submission` adding validation). Also the
  history endpoint as a pure function `History`, and the `Models` and
  `Service` classes whose methods are proved against those two functions.

The collaborators are inputs to the model:

- The summarization and embedding models are function-valued fields of
  `Models`. Each returns its output or the error it raises. A ghost `calls`
  log records every call with its text, and the summarizer's call also
  records the fixed arguments `max_length=130, min_length=30,
  do_sample=False`. The log is what makes "no model was called" something a
  contract can state.
- The id `uuid4()` returns is the parameter `docId`. The model assumes it is
  not already in the store, because a collision is cryptographically
  negligible.
- Whether the store's `add` raises, and with what text, is the parameter
  `addFault`.

Details of the code the model keeps:

- The document stored is the stripped text, not the text as submitted.
- Every collaborator error maps to the same status 500 with the error's text.
  There is no separate error kind per stage.
- History is the store's peek, not the most recent records. The model takes
  peek to be the first `min(10, count)` records in store order. It says
  nothing about recency.

## Model

| member | source | states |
|---|---|---|
| PyStr.LStrip | backend/main.py:32 | the result is a suffix of the input, everything removed is whitespace, and the result does not start with whitespace |
| PyStr.RStrip | backend/main.py:32 | the result is a prefix of the input, everything removed is whitespace, and the result does not end with whitespace |
| PyStr.Strip | backend/main.py:32 | `strip()` yields a slice of the input framed only by whitespace, with no whitespace at either end; it is empty exactly when the input is all whitespace |
| Backend.Validate | backend/main.py:32-34 | the request is rejected with 400 "Text cannot be empty" exactly when its text is all whitespace; otherwise the stripped, non-empty text goes on |
| Backend.SummaryText | backend/main.py:39 | `summary_result[0]['summary_text']` yields the first output's summary; an empty output gives the IndexError text and a missing key gives the KeyError text |
| Backend.Models.Summarize | backend/main.py:38 | the summarizer's answer for the text and the fixed generation arguments is returned, and the call is logged |
| Backend.Models.Encode | backend/main.py:42 | the embedder's answer for the text is returned, and the call is logged |
| VectorStore.Collection.Add | backend/main.py:46-51 | a successful add appends exactly the one record, after all existing ones, and keeps ids distinct; a failing add writes nothing and reports its error |
| VectorStore.AddFreshKeepsIdsDistinct | backend/main.py:45-51 | adding a record under an id the store does not hold keeps all ids pairwise distinct, so successive submissions never share an id |
| VectorStore.LookupAfterAdd | backend/main.py:45-51 | after a record is added under a fresh id, a lookup of that id finds exactly that record |
| VectorStore.LookupOtherAfterAdd | backend/main.py:45-51 | adding a record leaves the lookup of every other id unchanged |
| Backend.Pipeline | backend/main.py:36-59 | the summarizer is called first and every model call sees the validated text. A summarizer failure, or an output without `summary_text`, gives 500 with its text, and the embedder is not called. Once a summary is extracted, the embedder is called second; its failure, or a failing add, gives 500 with that text and no write. When every step succeeds, the response is `Saved` with the first output's `summary_text`, the minted id and the message "Saved to Vector DB", and exactly one record is written: the minted id, the embedder's vector, the validated text and `{summary}` |
| Backend.Submission | backend/main.py:30-59 | whitespace-only text gets 400 "Text cannot be empty" with no model call and no write; any other text goes through `Pipeline` stripped. Every error response writes nothing and is 400 or 500 |
| Backend.SubmissionRoundTrip | backend/main.py:45-57 | after a successful submission, looking its returned id up in the store finds the stripped text as document and the returned summary as metadata, and every other id looks up as before |
| Backend.Service.SummarizeText | backend/main.py:30-59 | the endpoint returns the `Submission` response, makes exactly its model calls and appends exactly its records to the store; the store's ids stay distinct |
| VectorStore.Collection.Count | backend/main.py:64 | `count()` is the number of stored records |
| VectorStore.PeekResult | backend/main.py:68 | a peek of `limit` has the four columns ids, embeddings, documents and metadatas, each listing the first `min(limit, count)` records in store order |
| VectorStore.Collection.Peek | backend/main.py:68 | `peek(limit)` returns that result, is logged, and changes no record |
| Backend.Sanitized | backend/main.py:72-73 | the result has no `embeddings` key, and every other key keeps its value |
| Backend.History | backend/main.py:61-75 | an empty store gives the empty history. Otherwise the history has exactly the keys ids, documents and metadatas, with between 1 and 10 rows, and row k is the k-th stored record |
| Backend.Service.GetHistory | backend/main.py:61-75 | the endpoint returns `History` of the store and changes no record; it peeks once, with limit 10, exactly when the store is non-empty |
| Backend.HealthCheck | backend/main.py:26-28 | the health check reports the models as loaded |

## Left out

- Loading the summarization and embedding models and connecting to the vector store at startup (backend/main.py:10-20). The model starts from already-built `Models` and `Collection` objects.
- The inference done by the summarization and embedding models. Their outputs, including the floating-point embedding values, are opaque inputs. The generation arguments are recorded, not interpreted.
- The format and randomness of `uuid4()`. The minted id is an input, assumed absent from the store.
- VectorStore.Collection.Add: requires a fresh id. The store's behaviour on a duplicate id is not modelled, because the backend only ever adds a freshly minted id.
- VectorStore.Collection.Add: takes one record, not the one-element lists the backend passes. The store's checks that those lists have equal lengths cannot fail here.
- Store failures on the history path. `count()` and `peek()` never fail in the model. The source has no handler there, so such a failure would reach the web framework's generic 500.
- Columns of the peek result other than ids, embeddings, documents and metadatas (such as the list of included fields, which some store versions add). Peek order is taken to be store order, as an implementation-defined choice.
- HTTP parsing and serialization. This includes FastAPI/pydantic request validation, the JSON encoding of responses, and the raising of `HTTPException` as a control-flow mechanism. Errors are values of `Response` instead.
- Failures of the summarization and embedding models (such as running out of memory) are modelled as depending on the text only. The models are fixed function values, so a given text fails or succeeds the same way on every request, while a store failure is chosen per call.
- Concurrency between requests. Each endpoint call is modelled as one sequential step on the store.
- The front end, frontend/app.py. It is display and transport code with no decisions of its own.
