# Steam review fetcher, modelled in Dafny

This project models `SteamReviewFetcher` in `cyberpunk_nlp/fetcher.py`. The class does two things:

- **Collecting.** It pages through Steam's review-listing endpoint for one game, following a
  server-issued cursor. Each page is cached as a file named after the cursor. The loop runs
  `total_reviews // 100` times.
- **Flattening.** It turns the cached pages into one row per sentence of every review that was
  not received for free.

The model has three modules:

- `Reviews` (`reviews.dfy`): the JSON shapes the fetcher reads (`Page`, `Review`, `Author`, `Response`),
  the constructor settings, the foreign helpers, and the cache file naming (`CacheFileName`, `GetFilepath`).
- `Collector` (`collector.dfy`): the pagination loop. `Iteration` is one pass through the loop body,
  and `Loop` chains `k` passes. The `SteamReviewFetcher` class holds the output directory's files
  (`files`), an event trace (`Fetch(cursor)`, `Write(path)`, `Sleep(seconds)`) and the number of
  requests issued so far. `CollectReviews` is a `for` loop proved equal to `Loop` run for
  `PageCount(total)` iterations.
- `Flattener` (`flattener.dfy`): `extract_sentences_dataframe`. Its nested loops are proved equal
  to `Flatten`, a filter (drop free reviews) followed by a flat-map (one row per sentence).

The environment is made of parameters:

- The server is a `Network`, a function from request number to `Response`: request k receives
  response k, like a scripted sequence of answers.
- `slugify`, `urllib.parse.quote` and `os.path.join` are `Libs` fields. `nltk.sent_tokenize` is a
  `Tokenizer`. All of them are uninterpreted function values.
- The output directory is a `map` from path to the stored page.
- `os.listdir` is a given sequence of file names.

Three consequences of the loop's control flow are worth stating:

- A cache hit `continue`s before `time.sleep` (`fetcher.py:63`), so a hit does not sleep.
  `HitIteration` and `IterationAccounting` state this: there are exactly as many sleeps as
  requests.
- On an `ok` response the cursor is replaced (`fetcher.py:68`) before `success` is tested
  (`fetcher.py:69`). So a response with `success != 1` still moves the cursor on, although
  nothing is written. `UnsuccessfulIteration` states this.
- If the first run met no failed or unsuccessful response (`NoFailures`), a re-run from the same
  cursor over the files it left behind, for no more iterations, fetches nothing in its loop.
  `RerunAllHits` and `RerunChangesNothing` prove this direction only. The count probe of a
  re-run is always a request.

## Model

| member | source | states |
|---|---|---|
| Reviews.CacheFileNameInjective | cyberpunk_nlp/fetcher.py:125 | the name `cursor_<slug>.json` determines the slug: two names are equal exactly when their slugs are |
| Reviews.GetFilepath | cyberpunk_nlp/fetcher.py:122-126 | the cache path of a cursor: `join(output_dir, "cursor_" + slugify(cursor) + ".json")` |
| Reviews.SameSlugSamePath | cyberpunk_nlp/fetcher.py:122-126 | the cache path depends only on the output directory and the cursor's slug: cursors with equal slugs share a file |
| Reviews.FilepathDeterminedByCursor | cyberpunk_nlp/fetcher.py:122-126 | when `join` is injective on relative file names under the output directory, two cursors get the same path exactly when their slugs are equal |
| Collector.GetCursorFromFile | cyberpunk_nlp/fetcher.py:128-134 | the next cursor read back from a cache file: `quote` of the `cursor` of the page stored under the cursor's path |
| Collector.TotalNrOfReviews | cyberpunk_nlp/fetcher.py:44-49 | the probe gives a total exactly when the response is `ok`, and that total is `query_summary.total_reviews`; otherwise it fails |
| Collector.SteamReviewFetcher.GetTotalNrOfReviews | cyberpunk_nlp/fetcher.py:44-49 | issues one request with cursor `*`, returns the reading above, and writes no file |
| Collector.PageCount | cyberpunk_nlp/fetcher.py:53-54 | the loop runs once per whole 100 reviews in the total; a partial final page is never requested; a negative total gives no iteration |
| Collector.PageCountOf250 | cyberpunk_nlp/fetcher.py:54 | a total of 250 gives exactly 2 iterations |
| Collector.Iteration | cyberpunk_nlp/fetcher.py:55-80 | one pass of the loop body: a hit only reads the next cursor from the file; a miss issues one request, takes the cursor from any `ok` response, stores the page under the old cursor's path only when `success == 1`, and sleeps |
| Collector.Loop | cyberpunk_nlp/fetcher.py:54-80 | `k` passes of the loop body, one after the other |
| Collector.HitIteration | cyberpunk_nlp/fetcher.py:55-63 | on a cache hit the cursor becomes `quote` of the stored page's cursor, and nothing is fetched, written or slept |
| Collector.NotOkIteration | cyberpunk_nlp/fetcher.py:65-80 | a non-`ok` response keeps the cursor, writes nothing and sleeps once |
| Collector.NotOkRetriesSameCursor | cyberpunk_nlp/fetcher.py:65-80 | after a non-`ok` response the next iteration's first event is a fetch of the same cursor |
| Collector.UnsuccessfulIteration | cyberpunk_nlp/fetcher.py:65-80 | an `ok` response with `success != 1` writes nothing and sleeps once, yet the cursor still becomes `quote` of the response's cursor |
| Collector.SuccessfulIteration | cyberpunk_nlp/fetcher.py:55-80 | an `ok` response with `success == 1` stores the whole page under the path of the cursor it was fetched with (computed before the cursor moves), then advances the cursor |
| Collector.LoopFront | cyberpunk_nlp/fetcher.py:54 | `k + 1` iterations are one iteration followed by `k` more |
| Collector.StepKeepsFiles | cyberpunk_nlp/fetcher.py:57-71 | one iteration keeps every existing file and its content, and never lowers the request count |
| Collector.StepWrites | cyberpunk_nlp/fetcher.py:66-71 | the file one iteration adds is exactly the path of its `Write` event (both directions) |
| Collector.StepStoresResponse | cyberpunk_nlp/fetcher.py:65-71 | a file one iteration adds is, whole, the `ok` response with `success == 1` to its single request |
| Collector.TraceIsRunEvents | cyberpunk_nlp/fetcher.py:54-80 | a run only appends to the trace, and what it appends is the iterations' events in order |
| Collector.FilesNeverOverwritten | cyberpunk_nlp/fetcher.py:57-71 | a run keeps every file that existed with its content unchanged, only appends to the trace, and never lowers the request count |
| Collector.WritesAreNewFiles | cyberpunk_nlp/fetcher.py:66-71 | the files a run adds are exactly the paths of its `Write` events (both directions) |
| Collector.NewFilesAreResponses | cyberpunk_nlp/fetcher.py:66-71 | every file a run adds has `success == 1` and is, whole, an `ok` response to one of the run's own requests |
| Collector.StepCounts | cyberpunk_nlp/fetcher.py:57-80 | one iteration appends as many fetches as sleeps, and that number is the number of requests it issues |
| Collector.StepHitOrFetch | cyberpunk_nlp/fetcher.py:57-65 | one iteration fetches nothing on a cache hit and exactly once otherwise |
| Collector.FetchesAreRequests | cyberpunk_nlp/fetcher.py:54-80 | over `k` iterations the fetches equal the sleeps and the requests issued |
| Collector.HitsAndFetches | cyberpunk_nlp/fetcher.py:54-65 | over `k` iterations the cache hits plus the fetches are `k` |
| Collector.IterationAccounting | cyberpunk_nlp/fetcher.py:54-80 | over `k` iterations the fetches equal the sleeps and the requests issued, and hits plus fetches equal `k` |
| Collector.AllHitsNoEffect | cyberpunk_nlp/fetcher.py:54-63 | if every cursor reached is cached, a run performs no fetch, write or sleep |
| Collector.NextCursorIsStored | cyberpunk_nlp/fetcher.py:57-71 | after a hit or a stored page, the file of the old cursor exists and the cursor read back from it is the cursor the run moved to |
| Collector.RerunAllHits | cyberpunk_nlp/fetcher.py:51-80 | after a run with no failed or unsuccessful response, a re-run from the same cursor over the files it left behind hits the cache at every iteration, whatever the server answers |
| Collector.RerunChangesNothing | cyberpunk_nlp/fetcher.py:51-80 | such a re-run, for no more iterations, issues no request and writes and sleeps not at all |
| Collector.SteamReviewFetcher.constructor | cyberpunk_nlp/fetcher.py:30-34 | stores game id, output directory, language (default `english`) and delay (default 1 second); the trace starts empty |
| Collector.SteamReviewFetcher.RunIteration | cyberpunk_nlp/fetcher.py:55-80 | one pass of the loop body, in place: the new files, trace, request count and returned cursor are those of `Iteration` from the old state |
| Collector.SteamReviewFetcher.CollectReviews | cyberpunk_nlp/fetcher.py:51-80 | a failed probe raises after its one request; otherwise files, trace and request count are those of `PageCount(total)` iterations from cursor `*` |
| Flattener.SentenceRows | cyberpunk_nlp/fetcher.py:103-117 | a review gives one row per sentence, in sentence order, each carrying the review's eight metadata fields unchanged |
| Flattener.ListedPages | cyberpunk_nlp/fetcher.py:84-88 | one page per listed name, in listing order: page `i` is the file at `join(output_dir, listing[i])` |
| Flattener.Flatten | cyberpunk_nlp/fetcher.py:84-117 | the table of a run of pages: the paid reviews of all pages in order, each expanded to its sentence rows |
| Flattener.FlattenAppend | cyberpunk_nlp/fetcher.py:84-88 | rows come in file order: the table of two runs of files is the two tables one after the other |
| Flattener.FlattenCount | cyberpunk_nlp/fetcher.py:88-117 | the table has exactly as many rows as there are sentences in the reviews not received for free |
| Flattener.KeptAreNotFree | cyberpunk_nlp/fetcher.py:89-90 | the filter keeps only reviews of the input, and none of them was received for free |
| Flattener.FlattenRowsFromPaidReviews | cyberpunk_nlp/fetcher.py:88-117 | every row carries the metadata and one sentence of a review of the pages that was not received for free |
| Flattener.OneReviewPage | cyberpunk_nlp/fetcher.py:88-117 | a one-review page gives no row if the review was free, and otherwise its sentence rows in order |
| Flattener.MixedPage | cyberpunk_nlp/fetcher.py:88-117 | a page with a free review and a three-sentence paid review gives exactly three rows, all of the paid review |
| Flattener.AppendSentenceRows | cyberpunk_nlp/fetcher.py:103-117 | the sentence loop appends exactly that review's sentence rows |
| Flattener.AppendPageRows | cyberpunk_nlp/fetcher.py:88-117 | the review loop appends the rows of the page's paid reviews, in review order |
| Flattener.ExtractSentencesDataframe | cyberpunk_nlp/fetcher.py:82-120 | the nested loops return exactly `Flatten` of the listed pages in listing order |

## Left out

- HTTP through `requests` and the URL template (`fetcher.py:25-28`, `36-42`): network I/O. The
  server is a scripted `Network`, and `Fetch` records only the cursor, not the URL.
- JSON encoding and decoding, and opening, reading and writing files. The directory is a map from
  path to page.
- Exceptions from the network layer. `requests.get` (`fetcher.py:41`) raises on a connection
  error, and with no timeout it can block forever. `response.json()` (`fetcher.py:47`, `67`)
  raises on an `ok` response whose body is not JSON. Either exception escapes `collect_reviews`
  and ends the run at whatever page it is on. The model's `Network` always answers, and every
  `ok` response decodes to a `Page`: the only failure it covers is a non-`ok` status.
- The text of the probe's error: `fetcher.py:49` interpolates the response into the message.
  `TotalNrOfReviews` fails with a fixed message, because a response's printed form is not part
  of the model. Which call fails, and when, is modelled.
- Faults from a missing, corrupt or incomplete cache file, or from a missing JSON key. They are
  unhandled and propagate. `GetCursorFromFile` requires the file to exist, which its only caller
  has checked. The flattener requires every listed name to resolve to a page.
- The internals of `slugify`, `urllib.parse.quote`, `os.path.join`, `nltk.sent_tokenize`, and the
  order in which `os.listdir` lists files. These are foreign libraries, left uninterpreted or taken
  as a given sequence.
- `pandas.DataFrame` construction (`fetcher.py:118`): the result is the sequence of row records.
- Logging (`fetcher.py:17-18` and every `logger` call): it has no behavioural effect.
- Real time: `time.sleep` is only a `Sleep(seconds)` event.
- Concurrent collectors on one directory: the code does not support it.
- The body of the `for` loop of `collect_reviews` is the separate method `RunIteration`; its
  `continue` on a cache hit is a `return`. Inline in the loop, it was too costly to verify. The
  statements, their order and their effect are those of the source.
- The review loop and the sentence loop of `extract_sentences_dataframe` are the separate
  methods `AppendPageRows` and `AppendSentenceRows`. Nested inside one method, they were too
  costly to verify. The loops, their order and their effect are those of the source.
