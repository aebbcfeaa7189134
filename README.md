# Content deletion core, modelled in Dafny

This project models the sequential core of a content-deletion service. The
service keeps content records in a DynamoDB table. Each record's key is
`ACCT#<account>` / `CTNT#<content>`. When a deletion message names an
account, the service pages through that account's records with Query calls
and deletes them in batches of at most 25 with BatchWriteItem.

The model covers:

- **The batch splitter `SplitSlice`** (`utils.dfy`). It cuts a sequence into
  chunks of at most `size` elements.
- **The store-side logic of `DDBService`** (`database.dfy`):
  - key derivation and the account query;
  - `DeleteAll` and `WriteItems`;
  - the three sequential fetchers: `FetchItemsSeqChannel` and
    `FetchItemsSeqPaginator`, which send delete batches page by page, and
    `FetchItemsSeqNoSplit`, which collects all items.
- **The single-threaded worker `ProcessSingleThread`** (`worker.dfy`).

The code is imperative, so the service, the DynamoDB client and the work
channel are classes whose fields the methods update. Each method is proved
against a specification function:

- `ProducerScan` for the page-by-page producers;
- `CollectPages` / `NoSplitResult` for the collecting fetch;
- `Succeeding`, `Calls` and `Apply` for the stop-at-first-error write loops.

Lemmas then state what those functions promise.

The outside world is modelled as follows (`store.dfy`, `channel.dfy`):

- **The DynamoDB client (`Store.Client`).**
  - The n-th Query call is answered with `pages[n]`. Past the end of
    `pages` it is answered with a query error.
  - A BatchWriteItem call either fails or applies its requests in order to
    a map from keys to items. The store first validates the whole call. It
    refuses an empty request list, more than 25 requests, or two requests
    on the same key. A valid call fails if its call number is in `failing`.
  - Every call is recorded.
- **Unmarshalling.** A page holds raw attribute maps. Each map is either
  decodable to a `ContentItem` or malformed.
- **The channel (`Channel.WorkChannel`).** It is the log of the batches sent
  on it.
- **The queue message and the worker's fetch.** Both are parameters of
  `ProcessSingleThread`: the receive outcome, and a function from the
  account ID to the fetch outcome.

Two behaviours of the producers are worth stating outright:

- **Batches restart at every page.** Each page is split on its own
  (`service/database.go:119`, `:157`), and no batch takes the tail of an
  earlier page. So the batch count is the sum over pages of
  ceil(|page|/25), not ceil(R/25) for R records.
  `PagingChangesBatchCount` proves that 30 records in three pages of 10
  give 3 batches, while the same 30 records in one page give 2.
- **A decode error aborts the scan.** A page that does not unmarshal ends
  the scan with its error (`service/database.go:112-116`, `:150-154`). The
  page is not skipped.

`FetchItemsSeq`, which `ProcessSingleThread` calls
(`service/worker.go:110`), is not part of this model: the repository does
not define it. `ProcessSingleThread` therefore takes its fetch as a
parameter.

The source's loop bodies are proved as separate methods, so that each proof
stays small:

- `ProducePage` and `ScanPage`: one page of a producer;
- `HandlePage`: unmarshal one page and send its batches;
- `PublishPage`: split one page and send a batch per chunk;
- `CollectContentIDs`: collect one chunk's content IDs;
- `BuildPutRequests`: build one chunk's put requests;
- `WriteChunk`, `WriteChunks`, `DeleteChunk` and `DeleteChunks`: one chunk,
  and the chunk loop, of `WriteItems` and `ProcessSingleThread`.

Some of these methods take ghost parameters. These name the requests a
chunk turns into, or the scan the loop is part of, and are used only in the
proofs.

## Model

| member | source | states |
|---|---|---|
| Utils.SplitSlice | service/utils.go:3-12 | The result is the chunking `Chunks(s, size)`: `size` elements are sliced off while more than `size` remain, then the non-empty rest is appended. It requires `size > 0`, because with `size = 0` the loop never advances. |
| Utils.ChunksProperties | service/utils.go:3-12 | The chunks concatenate back to the input; every chunk but the last has exactly `size` elements; the last has 1 to `size`; there are ceil(\|s\|/size) chunks; no input gives no chunks; and a non-empty input of at most `size` elements is a single chunk. |
| Utils.ChunksFlatten | service/utils.go:5-11 | Concatenating the chunks in order reproduces the input. |
| Utils.ChunksShape | service/utils.go:5-11 | All chunks but the last have exactly `size` elements, and the last has 1 to `size`. |
| Utils.ChunksCount | service/utils.go:5-11 | The number of chunks is ceil(\|s\|/size). |
| Model.ContentIDsIndex | service/database.go:122-125 | The content IDs of a chunk are its items' IDs, one per item, in order. |
| Store.Unmarshal | service/database.go:112-116 | Unmarshalling a page's attribute maps fails only with a decode error. |
| Store.UnmarshalSpec | service/database.go:112-116 | Unmarshalling succeeds exactly when every map is decodable. It then yields their items, one per map, in order. |
| Store.UnmarshalAppend | service/database.go:192-203 | Unmarshalling two pages' maps together succeeds exactly when both succeed, and yields both results in order. |
| Store.Client.Query | service/database.go:144 | A Query call is recorded and answered with the next scripted reply. |
| Store.Client.BatchWriteItem | service/database.go:240-248 | A BatchWriteItem call is recorded. When it succeeds, its requests are applied in order; when it fails, the table is unchanged. |
| Store.ApplyDeletes | service/database.go:229-243 | Applying delete requests removes exactly their keys and leaves every other item as it was. |
| Store.ApplyPuts | service/database.go:260-281 | After put requests that agree on each key, every put item is stored under its key. |
| Channel.WorkChannel.Send | service/database.go:127-130 | Sending a batch appends it to the channel's log. |
| Database.ContentKeyInjective | service/database.go:233-234 | Two content records share a table key exactly when they have the same account and the same content ID. |
| Database.QueryInputSelects | service/database.go:209-220 | The account query names the table and starts at the beginning. It selects every content record of the account, and only keys in the account's partition with the content prefix. |
| Database.QuerySelectsOwnAccount | service/database.go:212-215 | The query for account A selects a content record of account B exactly when A = B. |
| Database.DeleteRequestsIndex | service/database.go:228-238 | DeleteAll builds one delete request per content ID, in input order, each keyed on the request's account and that ID. |
| Database.DeleteRequestsDuplicates | service/database.go:228-244 | A delete batch names one key twice exactly when a content ID repeats. |
| Database.DeleteRequestsKeys | service/database.go:228-238 | The keys DeleteAll deletes are exactly the keys of its content IDs under the request's account. |
| Database.PutRequestsIndex | service/database.go:260-275 | WriteItems builds one put request per item of a chunk, in order. Each stores that item stamped with the write time. |
| Database.PutItemKey | service/database.go:266-267 | Every stored item is keyed `ACCT#account` / `CTNT#content`, and the account's query selects that key. |
| Database.PutRequestsConsistent | service/database.go:260-275 | The puts of content records never disagree on a key. |
| Database.PutsStoreItems | service/database.go:260-281 | After the puts of some records, each record is stored under its key, stamped with the write time. |
| Database.PutBatchesFlatten | service/database.go:257-275 | The chunk-by-chunk put batches together are the put requests of all the items, in order. |
| Database.WriteItemsNeverRejected | service/database.go:257-285 | Every WriteItems batch holds 1 to 25 requests, so it never trips the store's checks on empty calls or the 25-request ceiling. The store refuses a call only when its chunk holds a content record twice. Otherwise a failing call is a write failure. |
| Database.PutRequestsDuplicates | service/database.go:260-281 | A put batch names one key twice exactly when it holds one (account, content) record twice. |
| Database.WriteItemsStoresAll | service/database.go:254-289 | Once every WriteItems call has succeeded, every item is stored under its key. |
| Database.Succeeding | service/database.go:277-285 | The number of calls that succeed before the first failure is at most the number of batches. |
| Database.SucceedingIndex | service/database.go:277-285 | The calls before the k-th succeed, and the k-th call, if there is one, fails. |
| Database.SucceedingExact | service/database.go:277-285 | k is the number of successful calls exactly when the calls before it succeed and the k-th, if any, fails. |
| Database.WriteRunOutcome | service/database.go:257-288 | The call-by-call run of a stop-at-first-error loop (`WriteRun`) equals the closed form that `WriteItems` and `ProcessSingleThread` promise. That form has the calls for the first k batches and the failing one; that call's error; and the first k batches applied. |
| Database.WriteRunCalls | service/database.go:277-285 | The calls of a run from batch j are those of the successful batches and of the first failing one. |
| Database.WriteRunErr | service/database.go:282-285 | A run returns the error of its first failing call, or none. |
| Database.WriteRunItems | service/database.go:277-285 | A run leaves the table with exactly the successful batches applied, in order. |
| Database.PageBatchesCount | service/database.go:119-131 | One page of n items is sent as ceil(n/25) batches. |
| Database.PageBatchesWellFormed | service/database.go:119-131 | Every batch sent for a page carries the account and holds 1 to 25 content IDs. |
| Database.PageBatchesIDs | service/database.go:119-131 | A page's batches carry exactly its content IDs, in order. |
| Database.ToRequestsIDs | service/database.go:120-131 | The batches of some chunks carry the content IDs of those chunks, in order. |
| Database.CollectContentIDs | service/database.go:122-125 | The collected IDs are the content IDs of the chunk. |
| Database.PublishPage | service/database.go:119-131 | After one page, the channel holds what it held before followed by the page's batches. |
| Database.HandlePage | service/database.go:112-131 | A page that does not unmarshal returns its decode error and sends nothing. Otherwise the page's batches are sent. |
| Database.Decoded | service/database.go:106-116 | A reply decodes only if its Query call succeeded. |
| Database.ProducerScanOutcome | service/database.go:138-178 | A producer queries pages n to `last` in order, at least one. Every page before `last` unmarshals and has a continuation key. The scan succeeds exactly when page `last` unmarshals, and then `last` has no continuation key; otherwise it returns that page's error. |
| Database.ProducerScanSent | service/database.go:138-178 | A producer sends the batches of the pages it read, page after page and chunk after chunk. These are all queried pages on success, and all but the failing page otherwise. Nothing of the failing page or any later page is sent. |
| Database.PagesReadCons | service/database.go:141-175 | The pages read from call n are that call's page followed by those read from call n + 1. |
| Database.BatchesCons | service/database.go:141-175 | The batches of a first page followed by more pages are that page's batches followed by theirs. |
| Database.BatchesWellFormed | service/database.go:119-131 | Every batch sent for any pages carries the account and holds 1 to 25 IDs. |
| Database.BatchesIDs | service/database.go:119-131 | The batches sent for some pages carry those pages' content IDs, in page order. |
| Database.ProducerBatchesWellFormed | service/database.go:157-169 | Every batch a producer sends carries the account and holds 1 to 25 IDs. |
| Database.PagingChangesBatchCount | service/database.go:119 | Batching restarts at every page: three pages of 10 items give 3 batches, and one page of 30 gives 2. |
| Database.QueryLogShape | service/database.go:139-174 | Every query of a scan is the account query. The first starts at the beginning, and each later one at the continuation key of the page before it. |
| Database.NthQueryNext | service/database.go:171-174 | The next query starts at the continuation key of the reply to this one. |
| Database.QueryLogSnoc | service/database.go:141-175 | One more query extends the scan's query log by the next query. |
| Database.CollectStopsOnError | service/database.go:187-191 | The collecting fetch stops at a failed query and returns its error. |
| Database.CollectStopsOnLastPage | service/database.go:192-196 | The collecting fetch stops at a page without a continuation key, with that page's maps added. |
| Database.CollectAdvances | service/database.go:192-197 | Past a page with a continuation key, collecting goes on from the next query, with the page's maps added. |
| Database.NoSplitAgreesWithProducer | service/database.go:181-207 | The collecting fetch succeeds exactly when the per-page producers do, over the same queries. It then returns the producer's pages concatenated in order, and the producer's batches carry exactly the returned items' content IDs. |
| Database.NoSplitPages | service/database.go:181-207 | The collecting fetch and a producer succeed together. On success they make the same queries, and the collected items are the producer's pages, concatenated. |
| Database.BuildPutRequests | service/database.go:260-275 | The built requests are the chunk's put requests, one per item. |
| Database.ScanStep | service/database.go:141-175 | One page of a scan either ends it, with the page's error or with the page's batches sent, or moves the rest of the scan to the next query. |
| Database.DDBService.constructor | service/database.go:30-37 | The service keeps its client and table name. |
| Database.DDBService.DeleteAll | service/database.go:223-251 | More than 25 IDs are refused with an error before any store call. Otherwise one BatchWriteItem call deletes the IDs' keys under the account and returns the store's error. That call is made even for no IDs, and the store then refuses it as empty. On success exactly those keys are gone; on failure the table is unchanged. |
| Database.DDBService.WriteChunk | service/database.go:260-285 | One put call per chunk is recorded and returns the store's error. On success the chunk's puts are applied. |
| Database.DDBService.WriteItems | service/database.go:254-289 | Let k be the number of calls that succeed. Exactly the calls for the first k chunks and the failing one are made, in order. The failing call's error is returned, or none. The puts of the first k chunks, and only those, are applied. |
| Database.DDBService.WriteChunks | service/database.go:257-286 | The chunk loop makes the calls for the successful chunks and the first failing one, returns that call's error, and applies the successful chunks. |
| Database.DDBService.ProducePage | service/database.go:141-169 | One query is recorded. Its reply's decode error or query error is returned. On success its batches are sent, and its continuation key is returned. |
| Database.DDBService.ScanPage | service/database.go:141-175 | One page of a scan either ends the scan, and the channel then holds the whole scan's batches, or leaves the rest of the scan starting at the next query. |
| Database.DDBService.FetchItemsSeqChannel | service/database.go:138-178 | The channel receives exactly the batches of `ProducerScan`, and the scan's error is returned. The queries made are the scan's, each starting at the previous page's continuation key. No items are returned. |
| Database.DDBService.FetchItemsSeqPaginator | service/database.go:95-135 | The paginator has a page before the first query and after every page with a continuation key. Driven this way, the producer has the same outcome as FetchItemsSeqChannel: the same batches, error and queries. |
| Database.DDBService.FetchItemsSeqNoSplit | service/database.go:181-207 | The queries of the scan are made, stopping at the first query error or at the last page. The result is that error, or all pages' maps unmarshalled together, with the decode error if any. |
| Worker.ChunksWithinLimit | service/worker.go:116 | Every chunk the worker deletes holds 1 to 25 items. |
| Worker.DeletionsNeverRejected | service/worker.go:116-127 | No DeleteAll call from the worker exceeds 25 IDs, so DeleteAll's size check (`service/database.go:224`) is never reached. Every batch holds 1 to 25 requests, so it never trips the store's checks on empty calls or the 25-request ceiling. The store refuses a call only when its chunk repeats a content ID. Otherwise a failing call is a write failure. |
| Worker.DeleteRequestsAppend | service/worker.go:116-127 | The delete requests of two lists of IDs together are those of each, in order. |
| Worker.DeleteBatchesFlatten | service/worker.go:116-127 | Deleting chunk after chunk issues the delete requests of all fetched IDs, in order. |
| Worker.DeleteBatchesRemoveAll | service/worker.go:116-135 | Once every DeleteAll call has succeeded, exactly the fetched records are gone from the table, and every other item is as it was. |
| Worker.Worker.constructor | service/worker.go:17-24 | The worker keeps its store service. |
| Worker.Worker.DeleteChunk | service/worker.go:119-131 | One chunk's content IDs are collected and deleted with one DeleteAll call. That call's delete requests are recorded, and its error is returned. |
| Worker.Worker.ProcessSingleThread | service/worker.go:100-136 | A receive error or a fetch error is returned before any store call. Otherwise let k be the number of calls that succeed. Exactly the DeleteAll calls for the first k chunks and the failing one are made, each carrying the message's account. The failing call's error is returned, or none. The records of the first k chunks, and only those, are deleted. |
| Worker.Worker.DeleteChunks | service/worker.go:116-132 | The chunk loop makes the delete calls for the successful chunks and the first failing one, returns that call's error, and deletes the successful chunks' records. |

## Left out

- `FetchItems` (`service/database.go:40-92`): it runs one goroutine per page, which is concurrency. It also swallows query errors.
- `Worker.Process` and `delConsumer` (`service/worker.go:27-97`): this is the concurrent fan-out over goroutines, quit channels and a WaitGroup.
- `Populate` (`service/database.go:292-303`): it generates random UUIDs.
- `service/queue.go` and `main.go`: the SQS wrapper and the AWS client setup. The received message is a parameter of `ProcessSingleThread`.
- `FetchItemsSeq` (`service/worker.go:110`): the repository does not define it, so it is a parameter of `ProcessSingleThread`.
- Time: the write timestamp of `WriteItems` is a parameter `now`, in place of `time.Now`.
- `Worker.timer`: timing instrumentation.
- Logging: the `fmt.Println` calls have no effect on results and are left out.
- The context argument and its cancellation are left out.
- DynamoDB attribute marshalling is abstracted as decodable or malformed maps. Real decode errors are not distinguished.
- Unprocessed items: a BatchWriteItem call that succeeds applies all its requests. DynamoDB's `UnprocessedItems` reply, which the code ignores, is not modelled.
- The paginator's own checks, such as its duplicate-token check, are not modelled. It is modelled by its `HasMorePages` / `NextPage` behaviour only.
- Go slice aliasing: `SplitSlice` returns sub-slices that share the input's backing array. Sequences are values here, so that sharing is not captured.
- The `int32` query limit of 500 is an unbounded constant here. It never overflows.
