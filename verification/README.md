# Confidential publisher/advertiser matching: a verified model

A publisher and an advertiser want to know which of their ids they share without showing each other
their lists. The *publisher list generator* fetches the publisher's ids, gives each a random UUID and
stores the mapping as `id,uuid` lines. The *match worker* loads that mapping, streams the advertiser's
list past it and uploads the UUIDs of the ids both sides have. This project models that data path and
proves what it computes, under every chunking of the input and every interleaving of its threads.

## How the model is built

* **Bytes** are `char`s, a blob is a `string`. Sizes are unbounded naturals except where the program
  relies on 64-bit subtraction or narrows a stream position to `int`; both are written out.
* **Objects** whose methods update fields (`StringStream`, `CsvStreamParser`, `MatchTableHashMap`,
  `GcsPublisherListFetcher`, `MatchWorker`, the upload context, `RandomIdEncryptor` and its contexts) are
  classes. Each method is proved equal to a specification function of the old state, or to a run of a
  machine, and the theorems are about those.
* **Concurrent parts** are machines: a state, a total function `Apply(state, step)` in which a step that is
  not enabled changes nothing, and `Exec(state, steps)`. A schedule is any sequence of steps, so "for all
  `steps`" means every interleaving. A step is one access to shared state, except that a task that gives up
  (a stream that fails, a pair that finds its queue full, a refused rescheduling of the encrypt task) raises
  its flag and reports its result in one step, that a context reports its result and raises its done flag in
  one step, and that the download task looks whether the stream is finished and begins its done call in one
  step. Steps are sequentially consistent.
* **Loops that wait for other threads** are methods over an object together with what the other threads do
  before each access (`Delivery.GetBlobStreamTask`, `Generator.Session`). Each such method is a run of its
  machine.
* **External code** answers through parameters of the steps: whether a task is scheduled, whether a push is
  taken, how a stream or an upload ends, which UUID the generator of random UUIDs offers.

| file | what it models |
|---|---|
| `Lines.dfy`, `Whitespace.dfy`, `ExecutionResult.dfy` | splitting on a separator (the reference the scanners are proved against), whitespace normalisation, results |
| `StringStream.dfy`, `CsvRow.dfy`, `CsvStreamParser.dfy` | the incremental CSV parser, down to `getline`, `seekg`, `tellg` and the eof and fail flags |
| `ConcurrentParser.dfy` | the parser with a producer and a consumer thread |
| `MatchTable.dfy`, `MatchWorker.dfy`, `MappingLoad.dfy`, `Upload.dfy` | the match table, the worker's sequential loops, what loading a mapping answers, the upload functor |
| `BlobStreamer.dfy` | the download task and the client that pushes to it |
| `ExportMatches.dfy`, `ExportLosses.dfy`, `ExportReports.dfy`, `ExportRuns.dfy` | the streamer and the worker together; what an export can lose; what it reports; the sequential methods as runs of the two |
| `ExportSystem.dfy`, `ExportSchedules.dfy` | client, download task with its callback inside it, and worker, all together; what they can reach |
| `PublisherListFetcher.dfy`, `Mapping.dfy`, `Generator.dfy`, `RandomIdEncryptor.dfy` | fetching ids, printing the mapping, the generator's loops, the encryptor's tasks |
| `Pipeline.dfy`, `PipelineProgress.dfy`, `PipelineStages.dfy`, `PipelineFailures.dfy`, `PipelineOutputs.dfy`, `PipelineRecovery.dfy` | generator and encryptor as four actors, over any number of sessions; that no session is stuck; sessions one actor after the other; what failures do; what is filed whatever fails; when the generator can go on |
| `EndToEnd.dfy` | both pipelines composed |

## Assumptions

* The cloud SDK's queues and streaming contexts are linearizable bounded FIFOs with a done mark; a scheduled
  task runs once; every `Finish` of a context runs its callback, so a second one overwrites what the first
  reported. `LastReportIsSuccess` and `DroppedPairIsForgotten` rest on that: the encrypt task finishes its
  context once for each pair it could not queue, and once more at its end.
* *Honest* upload client: an upload that did not take a piece of data, and was cancelled for it, ends with a
  result other than success. `DishonestClientBreaksProtocol` shows why this is needed.
* The download client pushes nothing after it marked its stream done (`late` is false). `LatePushCanBeLost`
  shows why this is needed.
* *Faultless* history of the generator: every task is scheduled, every response that fits is taken, and no
  session has more ids than the pair queue holds (100000000). What happens otherwise is in
  `PipelineFailures.dfy`, `PipelineOutputs.dfy` and `PipelineRecovery.dfy`.
* A moved-from string stream is empty. A default-constructed result is a failure.

## What turned out not to hold

* `match_worker.cc` says in a comment that an error result is not overwritten, and the guard below it does
  the opposite. The code is followed: a refused chunk is forgotten (`LostChunksAreForgotten`), and for every
  table and every matching row of less than 20 MiB there is a stream of responses of at most 80 MiB, as the
  worker asks for, over which an export reports success with part of the join missing
  (`LostChunkShortensUpload`). No schedule loses anything exactly when the advertiser's list fits the parser:
  its bytes the buffer, its rows the row queue (`NothingLostIff`).
* An export in which no id matches calls an empty function object (`ExportCrashesIff`, `ExportEndsIff`).
* A generated mapping can be too large for the worker although the list it was made from was fetched: each
  printed line is 37 bytes longer than its id. A list of 12.2 million different five-character ids takes
  about 73 MB and its mapping more than 500 MiB. `MappingAcceptedIff` has the exact bound.
* A row the fetcher cannot parse ends its job without an error, and the rows after it become the start of
  the next job's list (`MalformedLineLeaks`). A last line without a line break is no error either: it is missing
  from its job's list and glued to the first line of the next job's (`UnterminatedLineLeaks`). `FetchExact`
  says exactly which blobs are read right.
* The last line of a mapping or of the advertiser's list is ignored, without an error, if it has no line break
  (`MappingLoadsIff`, `ExportSucceedsIff` speak of terminated lines only).
* With rows shorter than six bytes the parser's row queue can overflow (`RowQueueSuffices`).
* The encryptor reports success whatever pairs it dropped (`LastReportIsSuccess`), so a session of more ids
  than its queue holds can file a list with ids missing (`DroppedPairIsForgotten`); exactly such sessions
  can drop a pair (`PairQueueSuffices`), and in exactly such sessions the next `Encrypt` can be accepted with
  the encrypt task still running (`SessionsOverlapIff`). In this repository they do not occur: no fetch
  answers with more ids than that (`FetchedFitPairQueue`).
* If the executor refuses the encrypt task or the stream task of a session, no session ever begins again
  (`RefusedTaskBlocksForever`); a further session can begin exactly if it took both (`SessionsGoOnIff`). Nothing
  else that fails stops the generator for good (`GoesOnIff`).
* After a stream that failed the next session can begin with pairs left in the queue, if and only if the failed
  session had an id (`PairsAreLeftIff`). A session can file an output other than its ids with their UUIDs
  exactly if it has ids and found such pairs or has more ids than the queue holds (`FaithfulIffClean`).
* A row that ends in a delimiter gets a space appended, which shows when whitespace is kept (`ColumnsJoin`).

## Model

| member | source | states |
|---|---|---|
| Lines.SplitUnique | cc/common/csv_parser/src/csv_stream_parser.cc:60-95 | the reference for scanning: a text made of terminated lines and an unterminated rest splits into exactly those lines and that rest |
| Lines.SplitConcat | cc/common/csv_parser/src/csv_stream_parser.cc:60-103 | splitting a text in two pieces with the unfinished rest carried over gives the same lines and rest as splitting it at once |
| Whitespace.NormalizeIsNormal | cc/common/csv_parser/src/csv_row.cc:61-63 | a column with extra whitespace removed has no space at its ends and no two in a row, and is the input with characters struck out |
| Whitespace.NormalizeFixpoint | cc/common/csv_parser/src/csv_row.cc:61-63 | the texts whitespace removal leaves alone are exactly those in normal form; removing twice is removing once |
| Whitespace.NormalizeKeeps | cc/common/csv_parser/src/csv_row.cc:61-63 | exactly what is left of a column, said of its characters: every one that is none of the six ASCII spaces, and of each run of spaces between two such characters the last one, in order, and nothing else |
| Whitespace.NormalizeLosesBlanksOnly | cc/common/csv_parser/src/csv_row.cc:61-63 | no character but spaces is lost or moved, and spaces put before or after a column do not matter |
| Streams.StringStream.GetLine | cc/common/csv_parser/src/csv_stream_parser.cc:65-68 | `getline` on a cursor with eof and fail flags: up to the delimiter, or to the end with eof set, failing when there was nothing |
| Streams.StringStream.Tellg | cc/common/csv_parser/src/csv_stream_parser.cc:63-93 | asking for the position of a stream at its end sets the fail flag and yields -1 |
| Streams.StringStream.InsertBuffer | cc/common/csv_parser/src/csv_stream_parser.cc:97-103 | copies what the other stream has left to read; copying nothing sets the fail flag |
| Rows.Build | cc/common/csv_parser/src/csv_row.cc:37-72 | the `getline` loop over the padded row computes the columns of the specification, with its errors |
| Rows.BuildSucceedsIff | cc/common/csv_parser/src/csv_row.cc:42-79 | a row is accepted exactly when it is empty and no column is expected, or one column more than delimiters is; the error otherwise; an accepted row has those columns, and asking it for another one is an error |
| Rows.FieldsJoin | cc/common/csv_parser/src/csv_row.cc:60-65 | the fields the columns are compared with are a split of the row: joined with the delimiter they give it back |
| Rows.ColumnsJoin | cc/common/csv_parser/src/csv_row.cc:54-65 | with whitespace kept, joining the columns gives the row back, plus one space when it ends in a delimiter that is not a space |
| Rows.ColumnsNormal | cc/common/csv_parser/src/csv_row.cc:54-65 | with whitespace removed, the columns are the normal forms of the row's fields; the padding never shows |
| Rows.CarriageReturnVanishes | cc/common/csv_parser/src/csv_row.cc:54-65 | a row of a list with Windows line ends has the same columns as without the carriage return |
| Parser.CsvStreamParser.EndsInLineBreak | cc/common/csv_parser/src/csv_stream_parser.cc:69-77 | seeking to the end, narrowing the size to `int`, and reading the last character answers whether it is the line break, for every size the limit allows |
| Parser.CsvStreamParser.ScanRows | cc/common/csv_parser/src/csv_stream_parser.cc:60-95 | the seek and eof loop ends, queues exactly the complete lines as far as there is room, and leaves the cursor at the unfinished line, failed exactly when there is none; its second enqueue is dead code |
| Parser.CsvStreamParser.AddCsvChunk | cc/common/csv_parser/src/csv_stream_parser.cc:50-106 | the rows, tail, counter and result after a chunk: refused unchanged, or tail and chunk split together, or the queue filled up and the rest dropped |
| Parser.CsvStreamParser.GetNextRow | cc/common/csv_parser/src/csv_stream_parser.cc:112-125 | takes the oldest row, gives back its bytes and its line break without wrapping below zero, and returns what `Build` makes of it |
| Parser.AddChunkConsistent | cc/common/csv_parser/src/csv_stream_parser.cc:53-58 | adding keeps the counter between the bytes held and the limit, and line breaks out of rows and tail |
| Parser.NextRowConsistent | cc/common/csv_parser/src/csv_stream_parser.cc:117-121 | taking a row keeps that, and the 64-bit subtraction does not wrap |
| ConcurrentParser.CounterIsExact | cc/common/csv_parser/src/csv_stream_parser.cc:53-58 | under every interleaving the counter never passes the limit although check and addition are separate, and equals the bytes of queued and in-flight rows, tail and unscanned text unless an insertion failed |
| ConcurrentParser.ChunkingInvariance | cc/common/csv_parser/src/csv_stream_parser.cc:50-125 | under every interleaving without a failed insertion, rows handed out, in flight and queued are the complete lines of the accepted bytes, and the tail is what follows the last line break |
| ConcurrentParser.ScheduleUnobservable | cc/common/csv_parser/src/csv_stream_parser_interface.h:28-31 | two runs that accepted the same bytes, cut and interleaved as they may be, hand out the same rows |
| ConcurrentParser.RefusalsLeaveNoTrace | cc/common/csv_parser/src/csv_stream_parser.cc:53-56 | a schedule with its refused calls left out ends in the same state and refuses nothing |
| ConcurrentParser.NextChunkPasses | cc/common/csv_parser/src/csv_stream_parser.cc:53-58 | with nothing queued or in flight the next chunk passes exactly when it fits beside the tail |
| ConcurrentParser.AddChunkIsARun | cc/common/csv_parser/src/csv_stream_parser.cc:50-106 | what the sequential method computes is one uninterrupted run of the producer thread |
| ConcurrentParser.NextRowIsARun | cc/common/csv_parser/src/csv_stream_parser.cc:112-125 | what the sequential method computes is the consumer's two accesses with nothing between |
| ConcurrentParser.RowQueueSuffices | cc/common/csv_parser/src/csv_stream_parser.cc:38-40 | no schedule over rows of at least k bytes fails an insertion, if and only if k times one more than the capacity exceeds the buffer limit |
| ConcurrentParser.SixByteRowsSuffice | cc/common/csv_parser/src/csv_stream_parser_config.h:22-24 | at the 500 MiB limit rows of six bytes are enough, and some schedule over rows of five overflows |
| MatchTable.MatchTableHashMap.AddElement | cc/matcher/match_table/src/match_table_hash_map.h:30-40 | adds an unmatched entry, or reports a key that is there and changes nothing |
| MatchTable.MatchTableHashMap.MarkMatched | cc/matcher/match_table/src/match_table_hash_map.h:42-52 | flags a key and yields its value, or reports a missing key and changes nothing |
| MatchTable.MatchTableHashMap.VisitMatched | cc/matcher/match_table/src/match_table_hash_map.h:54-63 | visits every flagged entry once with its value, and nothing else |
| Fetcher.GcsPublisherListFetcher.FetchPublisherIds | cc/publisher_list_generator/publisher_list_fetcher/src/gcs_publisher_list_fetcher.cc:63-94 | the answer and the state the shared parser is left in, for every parser state and blob answer |
| Fetcher.GcsPublisherListFetcher.CollectIds | cc/publisher_list_generator/publisher_list_fetcher/src/gcs_publisher_list_fetcher.cc:83-93 | the loop yields the ids of the leading rows that hold one id, loses the first other row and leaves the later ones queued |
| Fetcher.FetchAnswers | cc/publisher_list_generator/publisher_list_fetcher/src/gcs_publisher_list_fetcher.cc:72-93 | for every consistent parser state and every answer of the client: the fetch fails with the client's own error, or when the blob does not fit beside what is counted, the parser unchanged in both cases, or when the lines of tail and blob do not fit the row queue; otherwise it succeeds with the leading ids; the parser stays consistent |
| Fetcher.FetchExact | cc/publisher_list_generator/publisher_list_fetcher/src/gcs_publisher_list_fetcher.cc:79-93 | from an empty parser a fetch returns exactly the normalised lines and leaves the parser empty, if and only if the blob fits, ends in a line break and has one id in every line |
| Fetcher.JobsAreIndependent | cc/publisher_list_generator/publisher_list_fetcher/src/gcs_publisher_list_fetcher.cc:54-94 | over any sequence of such blobs every job gets exactly its own lines |
| Fetcher.MalformedLineLeaks | cc/publisher_list_generator/publisher_list_fetcher/src/gcs_publisher_list_fetcher.cc:84-91 | for every blob with a row that is no id row and every next blob, the first job is answered with the ids before that row, and the next one with the ids after it followed by its own |
| Fetcher.UnterminatedLineLeaks | cc/publisher_list_generator/publisher_list_fetcher/src/gcs_publisher_list_fetcher.cc:79-93 | for every list with an unfinished last line and every next list of lines: the first job answers without that line and without an error, and the next with it in front of its own first line |
| Upload.ProducerStreamingContext.PutBlobStream | cc/matcher/match_worker/src/match_worker.cc:116-122 | opens the upload with its first data, or leaves it unopened and fails, with the client's failure if it has one |
| Upload.ProducerStreamingContext.PutBlobStreamFunctor | cc/common/blob_streamer/src/blob_streamer.cc:107-138 | a failure cancels and the done marker finishes, both yielding the client's outcome; data is pushed, and a refused push cancels and yields the client's outcome |
| Worker.MatchWorker.ParseBlobResponseIntoMatchTable | cc/matcher/match_worker/src/match_worker.cc:76-94 | the table and the result for every mapping blob, with the first error of any kind ending the load |
| Worker.MatchWorker.GetExistingRows | cc/matcher/match_worker/src/match_worker.cc:96-130 | the parser, the table, the upload and the result after a drain, with each early return |
| Worker.MatchWorker.CancelUploadIfStarted | cc/matcher/match_worker/src/match_worker.cc:59-64 | cancels a started upload and does nothing otherwise |
| Worker.AdvertiserStream.Callback | cc/matcher/match_worker/src/match_worker.cc:162-177 | a chunk goes to the parser and an error of it is kept; the done call replaces any result that is not a success, and raises the flag |
| Worker.MatchWorker.ExportAfterStream | cc/matcher/match_worker/src/match_worker.cc:185-192 | the parser, the table, the upload and the result of the part after the loop: failed stream, failed drain, nothing uploaded, or the done marker's answer |
| Worker.ExistingRowsEmits | cc/matcher/match_worker/src/match_worker.cc:99-128 | over id rows and a client that takes everything, a drain uploads the values of the matching rows in order and flags exactly the keys that occurred |
| Mapping.AppendMapping | cc/publisher_list_generator/generator/src/generator.h:130-135 | the appending loop prints one `id,uuid` line for each pair, in order |
| Mapping.LineParses | cc/common/csv_parser/src/csv_row.cc:37-72 | a printed line of a normal id without comma or line break parses back into exactly the id and the UUID |
| Mapping.MappingFitsQueue | cc/common/csv_parser/src/csv_stream_parser.cc:84-93 | a mapping that fits the buffer has no more lines than the row queue holds |
| Mapping.MappingRoundTrip | cc/matcher/match_worker/src/match_worker.cc:76-94 | parsing the printed mapping builds exactly the table of its pairs if the ids are distinct, and fails with the duplicate error if not |
| Loading.MappingAnswer | cc/matcher/match_worker/src/match_worker.cc:76-94 | every mapping blob the parser takes is loaded up to its first line that has not exactly one comma or repeats an id, and that line decides the answer; the table holds the normal forms of the two fields of the lines before it, and nothing else |
| Loading.TooLargeMapping | cc/matcher/match_worker/src/match_worker.cc:86 | a blob with too many bytes or too many lines is answered with the parser's error and leaves the table empty |
| Loading.MappingLoadsIff | cc/matcher/match_worker/src/match_worker.cc:76-94 | a mapping is loaded if and only if the parser takes it, every line has exactly one comma and no two lines have the same id; the table then holds exactly its lines |
| Delivery.OrderedExactlyOnce | cc/common/blob_streamer/src/blob_streamer.cc:164-214 | under every schedule the callback got a prefix of the pushed responses, in order and without repeats; the done call is one, last, carries the final result and comes after every response |
| Delivery.NothingAfterExit | cc/common/blob_streamer/src/blob_streamer.cc:187-212 | a task that has exited never calls back again |
| Delivery.GetBlobStreamTask.Run | cc/common/blob_streamer/src/blob_streamer.cc:187-212 | the polling loop, whatever client and stop do before each of its accesses, is a run of the machine's task; it exits whenever a stop, or both the mark and a finish, are among what they do, without its done call only when stopped; if it does not exit, they have done everything and every pushed response was handed over |
| Delivery.LatePushCanBeLost | cc/common/blob_streamer/src/blob_streamer.cc:190-200 | a schedule in which a response pushed after the mark is never delivered |
| Matching.MatchingComputesJoin | cc/matcher/match_worker/src/match_worker.cc:157-192 | every successful run that lost no chunk, however interleaved, uploaded exactly the values of the matching rows, in order with repetitions, and flagged exactly the keys that occurred |
| Matching.MatchedAreVisitedOnce | cc/matcher/match_table/src/match_table_hash_map.h:42-63 | after such a run the flagged entries are the ids on both sides, each visited once with its mapping value |
| Matching.UploadIsScheduleIndependent | cc/matcher/match_worker/src/match_worker.cc:157-192 | two such runs over the same bytes upload the same bytes and end with the same table, however the bytes were cut and the threads interleaved |
| Matching.UploadProtocol | cc/matcher/match_worker/src/match_worker.cc:179-192 | under every schedule the upload is opened at most once, pushed to only while open, ended at most once, never left open by a return, and finished only after a successful, fully drained stream |
| Matching.CrashesIffNoMatch | cc/matcher/match_worker/src/match_worker.cc:189-192 | of the runs that reach the end with nothing lost, those in which no advertiser id is in the table call the empty function object, and the others return success |
| Reports.ExportReports | cc/matcher/match_worker/src/match_worker.cc:96-192 | every export that returns reports one of four things: the client's answer to the done marker, its answer to a value it did not take, the failed outcome of the download, or the error of a row that is no id; in the last three a started upload is cancelled, and a success is always the client's own at the done marker |
| Reports.LossesAreReported | cc/matcher/match_worker/src/match_worker.cc:170-176 | until the done call the stream's result is an error of the parser exactly if a chunk or a row has been lost |
| Losses.LostChunksAreForgotten | cc/matcher/match_worker/src/match_worker.cc:162-176 | once the flag is up the result is the stream's own, whatever happened to its chunks |
| Losses.NothingRefusedIff | cc/common/csv_parser/src/csv_stream_parser.cc:53-58 | no schedule refuses a chunk, if and only if the whole advertiser blob fits the buffer |
| Losses.NothingLostIff | cc/matcher/match_worker/src/match_worker.cc:170-176 | no schedule loses a chunk or a row, if and only if the blob's bytes fit the parser's buffer and its rows the row queue |
| Losses.ParserRunsAlone | cc/common/csv_parser/src/csv_stream_parser_interface.h:28-31 | inside every run of the export the parser makes a run of the concurrent parser, so what holds of all its runs holds here |
| Losses.UploadIsJoinOfPrefix | cc/matcher/match_worker/src/match_worker.cc:99-128 | at every moment of every run, failed ones included, the bytes uploaded are the join of a prefix of the rows handed out, and while nothing is lost of a prefix of the advertiser's rows |
| ExportRuns.ExistingRowsIsARun | cc/matcher/match_worker/src/match_worker.cc:96-130 | what the sequential drain computes is a run of the worker alone, so the theorems about all schedules are about that method |
| ExportRuns.EndExportIsARun | cc/matcher/match_worker/src/match_worker.cc:185-192 | so is the part of the export after its loop |
| ExportRuns.ChunkCallbackIsARun | cc/matcher/match_worker/src/match_worker.cc:170-176 | a callback with a chunk, as the sequential methods do it, is a run of the streamer alone, also when the chunk is refused or the queue fills up |
| ExportRuns.ExportSucceedsIff | cc/matcher/match_worker/src/match_worker.cc:157-192 | for a blob that fits the parser some schedule succeeds, if and only if the stream does, every row is an id and some id matches |
| ExportRuns.ExportCrashesIff | cc/matcher/match_worker/src/match_worker.cc:189-192 | for such a blob some schedule calls the empty function object, if and only if the stream succeeds, every row is an id and no id matches |
| ExportRuns.LostChunkShortensUpload | cc/matcher/match_worker/src/match_worker.cc:159-176 | for every table and every matching row of less than 20 MiB there is a stream, in responses of at most the 80 MiB the worker asks for, and an honest run from the start that returns success without the last line of the join |
| ExportRuns.DishonestClientBreaksProtocol | cc/common/blob_streamer/src/blob_streamer.cc:129-137 | for every table and every matching row that fits a response there is a stream and a run from the start in which a client whose cancelled upload ends as a success is pushed to again |
| ExportSystem.RunsProject | cc/common/blob_streamer/src/blob_streamer.cc:185-213 | every run of client, download task with the callback inside it, and worker is a run of the download machine and a run of the streamer and the worker over what the client pushed |
| ExportSystem.ExportComputesJoin | cc/matcher/match_worker/src/match_worker.cc:157-192 | if the advertiser's list fits the parser, every successful run of the three, however the client cut the list, uploaded exactly the values of the matching rows |
| Schedules.ReachesIff | cc/common/blob_streamer/src/blob_streamer.cc:185-213 | over a stream that is delivered, the honest runs of client, download task and worker take the export exactly where the honest runs of streamer and worker do |
| Schedules.ExportEndsIff | cc/matcher/match_worker/src/match_worker.cc:157-192 | for an advertiser list that fits the parser, however the client cuts it, some run of the three succeeds if and only if the download does, every row is an id and some id matches, and some run calls the empty function object if and only if none matches |
| Pipeline.NoUuidIssuedTwice | cc/publisher_list_generator/id_encryptor/src/random_id_encryptor.cc:49-56 | over all sessions and whatever fails, no UUID is issued twice |
| Pipeline.IdsAreConserved | cc/publisher_list_generator/generator/src/generator.h:192-206 | at every moment of a faultless history the ids collected, in every queue, in every hand and not yet pushed are the session's ids, in order |
| Pipeline.NothingOverflows | cc/publisher_list_generator/generator/src/generator.h:180-222 | contexts sized to the number of ids and the pair queue never run out of room in a faultless history |
| Pipeline.SessionsAreIsolated | cc/publisher_list_generator/id_encryptor/src/random_id_encryptor.cc:107-118 | whenever the generator is free in a faultless history, no task runs, every queue is empty and the next `Encrypt` is accepted |
| Pipeline.EndingYieldsOutput | cc/publisher_list_generator/generator/src/generator.h:113-127 | a faultless session that ends has filed exactly its own ids with their UUIDs |
| Progress.NoDeadEnd | cc/publisher_list_generator/generator/src/generator.h:85-139 | from every reachable moment of a faultless session some schedule completes it, given a fresh UUID for each id that needs one |
| Failures.SessionsDoNotOverlap | cc/publisher_list_generator/id_encryptor/src/random_id_encryptor.cc:107-118 | whatever fails short of a dropped pair, an accepted `Encrypt` finds no task running, and after a stream that ended well an empty pair queue |
| Failures.PairQueueSuffices | cc/publisher_list_generator/id_encryptor/src/random_id_encryptor.cc:66-75 | after a faultless history no schedule of a session drops a pair, if and only if the session has no more ids than the pair queue holds |
| Failures.PairsAreLeftIff | cc/publisher_list_generator/id_encryptor/src/random_id_encryptor.cc:153-161 | whenever a session is accepted with no pairs left, it can end, by a stream that fails, with the next `Encrypt` accepted and pairs left in the queue, if and only if it has an id |
| Failures.LastReportIsSuccess | cc/publisher_list_generator/id_encryptor/src/random_id_encryptor.cc:67-94 | under every schedule in which no encrypt task is refused, whatever was dropped, a task that has stopped has last reported success |
| Failures.DroppedPairIsForgotten | cc/publisher_list_generator/id_encryptor/src/random_id_encryptor.cc:67-94 | every session of more ids than the queue holds has a schedule from the start that files its ids with only as many pairs as the queue holds |
| Failures.RefusedTaskBlocksForever | cc/publisher_list_generator/id_encryptor/src/random_id_encryptor.cc:113-117 | after any history, when the encrypt task or the stream task of a session cannot be scheduled, no schedule gets a session accepted or an output filed again |
| Outputs.PipelinePairsEveryId | cc/publisher_list_generator/generator/src/generator.h:85-139 | over any number of sessions, whatever task is refused and whatever response is not taken: while each session that begins finds the pair queue empty and has no more ids than it holds, no pair is dropped, every output filed is its session's ids in order, each with a UUID, and all UUIDs of all outputs are distinct |
| Outputs.UnfailedSessionConserves | cc/publisher_list_generator/generator/src/generator.h:192-206 | in such a history the ids of a session that has not failed are at every moment all accounted for, in order |
| Outputs.FaithfulIffClean | cc/publisher_list_generator/generator/src/generator.h:113-127 | after such a history no schedule of a further session files anything but its own ids with their UUIDs, if and only if that session begins so too or has no ids |
| Recovery.GoesOnIff | cc/publisher_list_generator/id_encryptor/src/random_id_encryptor.cc:107-161 | after any history, whatever failed in it, some schedule gets an `Encrypt` accepted, if and only if the generator is not free with the stream's flag down and no stream task to raise it |
| Recovery.SessionsGoOnIff | cc/publisher_list_generator/id_encryptor/src/random_id_encryptor.cc:107-118 | whenever a session is accepted, whatever happened before, some schedule gets a further one accepted, if and only if both tasks of this one are scheduled |
| Recovery.SessionsOverlapIff | cc/publisher_list_generator/id_encryptor/src/random_id_encryptor.cc:66-75 | with no pairs left over, an `Encrypt` can be accepted while the encrypt task of the session before still runs, if and only if that session has more ids than the pair queue holds |
| Recovery.FiledSessionPairedAll | cc/publisher_list_generator/generator/src/generator.h:113-127 | whatever fails, tasks refused and pairs dropped: a session is filed only when every one of its ids was pushed, taken and given a UUID, in order, and no UUID twice |
| Recovery.FreeMeansWaited | cc/publisher_list_generator/generator/src/generator.h:117-120 | whatever fails: after a stream that ended well the main thread is free only once the pushing thread has ended and the encryption has been reported |
| Encryptor.RandomIdEncryptor.GetUniqueUuid | cc/publisher_list_generator/id_encryptor/src/random_id_encryptor.cc:49-56 | returns and records a UUID that was never issued, whenever the supply still offers one |
| Encryptor.RandomIdEncryptor.DrainRequests | cc/publisher_list_generator/id_encryptor/src/random_id_encryptor.cc:64-76 | the loop pairs every request in order and is a run of the encrypt task; with room, the queue grows by exactly the new pairs |
| Encryptor.RandomIdEncryptor.EncryptIdsInternal | cc/publisher_list_generator/id_encryptor/src/random_id_encryptor.cc:58-105 | an uninterrupted task is a run of the machine's encrypt task, pairs every request in order, and reports success and raises its flag exactly after the mark |
| Encryptor.RandomIdEncryptor.Encrypt | cc/publisher_list_generator/id_encryptor/src/random_id_encryptor.cc:107-118 | accepted exactly when both flags are up and the task is scheduled; the flags go down in both cases of the latter |
| Encryptor.RandomIdEncryptor.DrainPairs | cc/publisher_list_generator/id_encryptor/src/random_id_encryptor.cc:126-135 | no pair is lost or reordered between the queue and the responses, except the one a failed push consumed |
| Encryptor.RandomIdEncryptor.StreamIdsInternal | cc/publisher_list_generator/id_encryptor/src/random_id_encryptor.cc:120-162 | an uninterrupted task, in whatever state it finds the flags, is a run of the machine's stream task; it ends well only with encryption done and the queue empty, and goes on only if it was scheduled again |
| Generator.PushIds | cc/publisher_list_generator/generator/src/generator.h:192-206 | the pushing thread is a run of the machine's pusher, pushes the ids in order and always marks the requests done |
| Generator.BeginEncryption | cc/publisher_list_generator/generator/src/generator.h:176-208 | whether the encryptor accepts and the executor schedules or not, what happens to the shared state is the machine's step that begins a session |
| Generator.Session.RetrieveAllIds | cc/publisher_list_generator/generator/src/generator.h:249-270 | the two loops, whatever the other actors do before each access, are a run of the machine's main thread in which the others do exactly that; they end if the stream is done or gets done, with what was collected or the stream's failure, and otherwise leave no act undone and no response queued |
| EndToEnd.GeneratedMapping | cc/publisher_list_generator/generator/src/generator.h:85-139 | what the generator produces from a blob in some session, whatever fails in it or around it, has the blob's normalised ids in order, all of them fit to be printed |
| EndToEnd.SomeHistoryGenerates | cc/publisher_list_generator/generator/src/generator.h:85-139 | every id list is generated by some history, given a fresh UUID for each id |
| EndToEnd.FetchedFitPairQueue | cc/publisher_list_generator/publisher_list_fetcher/src/gcs_publisher_list_fetcher.cc:79-93 | no fetch, whatever is left in the parser, answers with more ids than the encryptor's queue holds |
| EndToEnd.MappingAcceptedIff | cc/matcher/match_worker/src/match_worker.cc:147-149 | the worker accepts a generated mapping if and only if the publisher's normalised ids are distinct and their lines, 37 bytes longer each, fit the buffer |
| EndToEnd.EndToEndJoin | cc/matcher/match_worker/src/match_worker.cc:132-193 | for an advertiser list that fits the parser, whenever the worker accepted a generated mapping and a run of client, download task and worker succeeded, the upload is, for each advertiser row whose id the publisher has, in order with repetitions, the one UUID of that id; the pairs are the publisher's ids in order and no two share a UUID |
| EndToEnd.EndToEndSucceedsIff | cc/matcher/match_worker/src/match_worker.cc:157-192 | with an accepted mapping and such a list, however the client cuts it, some run of client, download task and worker succeeds, if and only if the download does, every advertiser row is an id and the two lists share an id |

## Left out

- Pipeline and Matching: the actors that run at the same time are values stepped by a machine, not objects on a heap; aliasing of what several threads capture is not modelled.
- The loop of `ExportMatches` that drains until the flag is up is a machine only; its drains (`Worker.MatchWorker.GetExistingRows`) and what follows it (`Worker.MatchWorker.ExportAfterStream`) are methods, each a run of the worker.
- Encryptor.RandomIdEncryptor.EncryptIdsInternal: as a method it runs uninterrupted; interleavings with the pushing thread are the machine's. The same holds for `StreamIdsInternal` and `Generator.PushIds`.
- Parser.CsvStreamParser.AddCsvChunk: the sum of chunk size and counter is not wrapped, because a chunk long enough to wrap it does not fit in memory.
- MatchTable.MatchTableHashMap.VisitMatched: records the visitor's calls instead of running a visitor; the hash map's iteration order is any order.
- Pipeline.IdsAreConserved: assumes a faultless history; with failures `Outputs.UnfailedSessionConserves` says the same of sessions that have not failed, and what becomes of a failed session's ids is not stated.
- Recovery.SessionsOverlapIff: says when a session can begin with the encrypt task of the one before still running; in the model the new session's task then takes the old one's place, and two of them at once are not modelled.
- EndToEnd.EndToEndJoin: is stated for advertiser lists that fit the parser; for larger ones `Matching.MatchingComputesJoin` says the same of every run that happens to lose nothing.
- Liveness of the spin loops under a fair scheduler; `NoDeadEnd`, `GoesOnIff`, `ExportEndsIff` and `EndToEndSucceedsIff` say only that a completing schedule exists.
- Randomness of UUIDs: they come from an arbitrary supply and stand for their 36-character printed form.
- Lifetimes of variables that callbacks capture by reference, reassigning a running `std::thread`, weak memory ordering.
- The failure of a task that is dropped by the executor after it was accepted.
- Bucket and blob names, cloud identities, request building, the bucket look-up from the metadata blob, the mapping uploader, logging and error-code registration.
- `worker_runner`, the experimental command-line tools and the local file fetcher: start-up, polling for jobs and file reading around the data path.
