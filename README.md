# CSV Q&A assistant: a Dafny model of its core

This project models the back end of csv-qa-assistant. Users upload a CSV of
releases. Each row has a `release_date` and a `total_sales` cell. The service
stores the rows and offers two read operations:

* `GET /sales_stats_by_year` gives per-year sales totals and each year's share
  of the grand total.
* `POST /query_csv` answers a free-text question. It builds a prompt from
  three parts: past exchanges that resemble the question, the same per-year
  statistics as text, and a sample of the data. It sends the prompt to a text
  generator, stores the answer in a query history, and stores the question's
  embedding in a vector collection, with the question and the answer as payload.

The model has six modules:

* `Wrappers`: `Option`, `Result` and `Outcome`.
* `Errors`: the exceptions the handlers raise or catch, and the `detail` of an
  error response. A detail is either a fixed message or `str(e)` of a caught
  exception.
* `Text`: `str.strip()`, `"\n".join` with `split` as its inverse, and `str(int)`.
* `Analytics`: the aggregation in `statistics.py`, which `query_csv` repeats.
  * It filters rows to a frame of kept rows.
  * It groups the frame by year into an ascending series.
  * It computes per-year sums and percentage shares, with double rounding.
  * The reference definitions over the filtered frame are `YearsOf`, the set
    of its years, and the sums `SumFor` (one year) and `Total` (all years). The
    grouped series is proved to agree with them.
  * The whole `/sales_stats_by_year` handler is modelled, including its
    exception handling.
* `VectorStore`: the state machine of `qdrant_utils.py`, as the class
  `Manager`.
  * Its fields are the two lazily set globals (client and embedding model),
    the `csv_embeddings` collection as `Option<VectorParams>`, and the stored
    records.
  * `uuid4` is modelled as a counter, and an invariant proves its ids are
    fresh.
  * Its methods are `Initialize`, `SaveEmbedding` and `RetrieveSimilar`.
  * The backend's ranking (`client.search`) is the function field `search`.
    Its only promise, kept in `Valid()`, is that it returns at most `limit`
    distinct stored records.
* `CsvRoutes`: the two handlers of `csv_routes.py`.
  * Each has a pure reply function: `UploadReply`, and `QueryReply` followed
    by `Respond`.
  * The class `App` holds the stored rows, the query history and the vector
    store. `UploadCsv` is proved to return exactly its reply function's result.
    `QueryCsv` is proved to return its reply function's result, except when
    the final upsert raises. Both are proved to update the state accordingly.
  * A separate module section covers the stats text, the context fallback, the
    50-row sample and the prompt layout.

The model's parameters stand in for code it cannot see:

* The library calls the handlers depend on are fields of the datatype
  `Analytics.Pandas`: date parsing, numeric coercion, `round(x, 2)`, float
  rendering and `DataFrame.to_string`.
* The generator is a function from prompt to `Generation`.
* Whether Qdrant responds, whether the model loads and whether the recreate
  call succeeds are boolean parameters of `Initialize`. Whether the remote
  upsert goes through is the boolean `backendOk` of `SaveEmbedding`, which
  `QueryCsv` passes on as `upsertOk`.
* The embedding is the manager's `embed` function.
* The clock is the value `now`, of type parameter `Time`.

## Model

| member | source | states |
|---|---|---|
| Text.Strip | back/routes/csv_routes.py:133 | the answer is the generated text minus surrounding whitespace: the text is whitespace, then the result, then whitespace; the result neither starts nor ends with whitespace |
| Text.StripIdempotent | back/routes/csv_routes.py:133 | stripping a stripped answer changes nothing |
| Text.SplitJoin | back/routes/csv_routes.py:88-91 | when no part contains the separator, splitting a `"\n".join` gives back exactly the parts |
| Text.IntToString | back/routes/csv_routes.py:89 | `str(year)` is decimal digits, preceded by `-` for a negative year; the digits denote the absolute value of the year and have no leading zero unless the year is 0 |
| Text.DigitsValue | back/routes/csv_routes.py:89 | the decimal digits of `n`, read left to right, denote `n` |
| Text.DigitsNoLeadingZero | back/routes/csv_routes.py:89 | the decimal digits of `n` start with `0` only for `n == 0` |
| Analytics.Kept | back/routes/statistics.py:16-19 | the filtered frame has no more rows than the input; each kept row has a parsed year, sales present and the coerced amount (non-numeric text counts as 0). `KeptRow` and `DroppedRow` together show the filter keeps exactly these rows, in order |
| Analytics.KeptRow | back/routes/statistics.py:16-19 | a row with a parsed year and present sales stays in the frame, in its own place, as its coerced sale |
| Analytics.PrepareFrame | back/routes/statistics.py:15-19 | raises KeyError exactly when no stored document has `release_date` (checked first) or `total_sales`; otherwise returns the filtered frame |
| Analytics.GroupSpec | back/routes/statistics.py:21-22 | the groupby series is strictly ascending by year and holds exactly the frame's years; each year's value is the sum of that year's sales, and the series sums to the grand total |
| Analytics.YearStats | back/routes/statistics.py:21-23 | one entry per distinct year, strictly ascending; each entry's sales is that year's sum and its share is sum / total * 100 (IEEE inf/NaN when the total is 0) |
| Analytics.SalesSumToTotal | back/routes/statistics.py:21-22 | the per-year sums add up to the grand total |
| Analytics.SharesAreRatios | back/routes/statistics.py:22-23 | with a nonzero total, every unrounded share is finite and equals sales / total * 100 |
| Analytics.SharesSumTo100 | back/routes/statistics.py:22-23 | with a nonzero total, the unrounded shares add up to exactly 100 |
| Analytics.DroppedRow | back/routes/statistics.py:16-17 | a row the filter drops leaves the frame as if it were absent |
| Analytics.UnparsedDateNeverContributes | back/routes/statistics.py:16-17 | a row whose date is missing or unparseable changes neither the frame nor any per-year entry, whatever its sales |
| Analytics.MissingSalesDropped | back/routes/statistics.py:17 | a row with missing or null `total_sales` is dropped even when its date is valid |
| Analytics.NonNumericCountsAsZero | back/routes/statistics.py:16-19 | a dated row with non-numeric sales text is kept with amount 0: its year appears, and no per-year sum and no total changes |
| Analytics.ComputeStats | back/routes/statistics.py:10-29 | no rows raises 404 "Nessun dato disponibile."; a missing column raises KeyError; otherwise the stats are ascending, one per year, with `round(sum, 2)` and the share rounded twice |
| Analytics.SalesStatsByYear | back/routes/statistics.py:8-32 | the handler raises exactly when there are no rows or a column is missing, and then always the 500 with the generic message (the 404 is swallowed); otherwise it returns the computed stats |
| Analytics.SingleYearExample | back/routes/statistics.py:16-28 | rows 2020/"10", 2020/"30" and "bad"/"5" give the single entry 2020, 40, 100% |
| Analytics.StatYearsCount | back/routes/statistics.py:25-28 | a strictly year-ascending list has exactly one entry per year it mentions |
| VectorStore.FormatHits | back/qdrant_utils.py:108 | one context line per search result |
| VectorStore.HitRoundTrip | back/qdrant_utils.py:108 | a `Q: …\nA: …` line parses back to the exchange's question and answer when the question has no newline |
| VectorStore.RankedBound | back/qdrant_utils.py:102-106 | a search returns at most as many results as there are stored points |
| VectorStore.Manager.constructor | back/qdrant_utils.py:20-21 | at import time there is no client, no model and no collection; the embedding and the ranking are the given functions |
| VectorStore.Manager.Initialize | back/qdrant_utils.py:24-65 | afterwards the client is always set; an unreachable server raises before the model loads; a model that fails to load raises; then the recreate outcome decides; success leaves an empty 384-dimension cosine collection; ids are never reused |
| VectorStore.Manager.SaveEmbedding | back/qdrant_utils.py:69-89 | fails with the not-initialised error unless client and model are set; a missing collection or a remote upsert that raises (`backendOk` false) fails too; otherwise appends exactly one record with a fresh id, the question's embedding and the payload; a failure changes nothing |
| VectorStore.Manager.RetrieveSimilar | back/qdrant_utils.py:93-108 | fails with the not-initialised error unless client and model are set; otherwise the hits are the backend ranking `search` of the stored records for the question's embedding (the same `embed` that `SaveEmbedding` stores), with limit `top_k`; they are at most `top_k` distinct stored records, one formatted line each; nothing changes |
| CsvRoutes.StatLines | back/routes/csv_routes.py:88-91 | one stats line per distinct year of the frame |
| CsvRoutes.StatsTextLines | back/routes/csv_routes.py:88-91 | the stats text is empty when no row survives; otherwise splitting it at newlines gives back the per-year lines in ascending year order |
| CsvRoutes.StatsTextAgreesWithEndpoint | back/routes/csv_routes.py:79-91 | line by line, the stats text renders the entries `/sales_stats_by_year` returns for the same rows |
| CsvRoutes.ContextPlaceholderIff | back/routes/csv_routes.py:94-95 | the placeholder "Nessuna conversazione simile." appears exactly when the search found nothing; otherwise the context is the joined hit lines |
| CsvRoutes.Sample | back/routes/csv_routes.py:98 | the sample is the first min(n, 50) rows of the filtered frame |
| CsvRoutes.PromptLayout | back/routes/csv_routes.py:100-119 | the prompt is the fixed introduction, then the context, the stats, the sample and the question, each right after its header, with only the answer cue after the question |
| CsvRoutes.UploadReply | back/routes/csv_routes.py:22-57 | success exactly for a non-empty `text/csv` record list, reporting its length; a wrong type gives 400; empty data gives 400; a parser error gives 400 with its message; an empty record list gives a 500 wrapping the 400 |
| CsvRoutes.QueryReply | back/routes/csv_routes.py:64-144 | no rows raises 404; a missing column raises KeyError; a retrieval failure propagates; a generator error raises; a response with no parts raises 500; otherwise the answer is the stripped text; success occurs exactly when every step passes |
| CsvRoutes.Respond | back/routes/csv_routes.py:146-150 | every exception of the `try` becomes a 500 whose detail is `str(e)` |
| CsvRoutes.App.UploadCsv | back/routes/csv_routes.py:18-57 | returns `UploadReply`; a successful upload replaces the stored rows with exactly the parsed records; an error leaves them unchanged; the history is untouched |
| CsvRoutes.App.QueryCsv | back/routes/csv_routes.py:60-150 | returns `Respond(QueryReply(...))` on the stored rows and what retrieval gave, except that a failing upsert after a successful answer gives the 500 for that exception; rows and store configuration are unchanged; a failure before the answer writes nothing; once there is an answer the history gains exactly one entry, and the store gains one record exactly when the upsert goes through, so a failing upsert leaves the history entry with no vector record |
| CsvRoutes.App.Remember | back/routes/csv_routes.py:136-142 | the history always gains the exchange first; the ready vector store then gains exactly one record with a fresh id when the upsert goes through, and nothing when it raises, which is reported as the save's failure |
| CsvRoutes.App.constructor | back/routes/csv_routes.py:65-66 | a convenient starting state with no stored rows and no history; the stored collections outlive a restart, so every method of `App` accepts any valid state, not only this one |

## Left out

- MongoDB access (`find`, `to_list`, `delete_many`, `insert_many`, `insert_one`) is modelled as the fields `rows` and `history`. The `ServerSelectionTimeoutError` handlers (503 "MongoDB non raggiungibile.") are left out because the model has no database connection that can time out.
- File reading, UTF-8/latin-1 decoding and `pd.read_csv` are not modelled. Their outcome is the input `CsvParse`: records, `EmptyDataError` or `ParserError`.
- Other exceptions raised while parsing an upload, which the generic 500 handler would catch, are not modelled.
- Floating-point arithmetic is modelled with exact reals. A zero total gives IEEE inf/NaN shares; apart from that, the model does not capture float rounding error in sums and divisions.
- The `Pandas` datatype leaves these library functions abstract: `round(x, 2)`, float `str`, `pd.to_datetime` of one cell, `pd.to_numeric` of one text cell and `DataFrame.to_string`.
- Per-column inference of a date format by `pd.to_datetime` over a whole column is not modelled; each cell is parsed on its own.
- The JSON encoding of the response is not modelled. With a zero grand total over a non-empty frame (every kept `total_sales` 0 or non-numeric), the stats dict holds NaN or infinite percentages. FastAPI then refuses to encode them, and the served `/sales_stats_by_year` fails with the framework's 500 instead of returning the stats that `SalesStatsByYear` gives.
- The integer/float distinction of pandas is not modelled: a `total_sales` column of integers stays int64 through the sums, so its `round(sales, 2)` renders as `40` while a percentage renders as `100.0`. The one rendering function `Pandas.str` over reals cannot give both spellings of the same value.
- Stored columns other than `release_date` and `total_sales` are not modelled. They affect only the rendering of the sample table, which is abstract.
- The Gemini model name and its generation settings (temperature 0.7, at most 500 output tokens) are not modelled. The generator is a function parameter.
- Logging, `print` debugging, async scheduling, concurrency between requests and application startup (`main.py`) are not modelled.
- `uuid4()` is modelled as the counter `nextId`. The model proves ids are fresh; it does not model random collisions.
- Analytics.SalesStatsByYear: states what the handler returns, not the HTTP response. At a zero grand total the served endpoint fails with the framework's 500, as the JSON encoding line above explains.
- VectorStore.Manager.constructor: a `csv_embeddings` collection left over from an earlier process is not modelled; every process starts with no collection.
- VectorStore.Manager.Initialize: a failing `recreate_collection` is assumed to leave the previous collection and records unchanged. Qdrant's partial-failure behaviour is not visible from this code.
- VectorStore.Manager.RetrieveSimilar: ordering by cosine similarity is not modelled. The ranking `search` promises only at most `limit` distinct stored points, in the backend's order.
- VectorStore.Manager.RetrieveSimilar: a remote `client.search` that raises is not modelled; it would reach the generic 500 handler before anything is written.
- VectorStore.Manager.SaveEmbedding: every reason the remote `client.upsert` may raise (server down, time-out, rejected point) is the single error `UpsertFailed`; the exact Qdrant client exception and its text are not modelled.
- Text.Strip: whitespace is the fixed set of `str.isspace()` code points listed in `Text.IsSpace`. Python's Unicode database is not consulted.
- CsvRoutes.StatsTextLines: requires that the float rendering writes no newline; for a `str` of a float this always holds.
- CsvRoutes.StatsTextAgreesWithEndpoint: requires `round(x, 2)` to be idempotent, because the endpoint rounds the percentage twice and the query text rounds it once.
- CsvRoutes.QueryReply: the detail of an exception raised by the generator is kept abstract as `GenerationFailed`.
