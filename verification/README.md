# Verified model of the fetch core

A Dafny 4.11 model of the stateful engines under the fetcher: the streaming subresource scheduler, the HTTP/2 client
as a machine over frames, the connection lifecycle with its redirect loops, the concurrent connect race, the SOCKS5
client, the URL parser and reference resolver, the catalog numbering, and the wire encoders. `dafny verify
dfyconfig.toml` checks the whole project.

## How it is built

Code that updates state in place is a class or a method with loops here too (`RuntimeSubresourceState`,
`IncrementalSubresourceScanner`, `Client`, `ConnectionState`, the parser's cursor, the handshake over a socket, the
polling of futures). Each such method is proved equal to a specification function over values, and the properties are
lemmas about those functions over all runs. What a request asks for, where a redirect leads, where the scanner cuts,
which URLs follow the page and what an error says is told in terms of the input alone (`Targets`, `Requests`,
`FurtherUrls`, `FetchErrors`, `CatalogOrder` and the lemmas named below), not through those functions.

| file | what it models |
|---|---|
| `UrlParser.dfy`, `Text.dfy` | `parse_url` and the string searches it is written with |
| `Resolver.dfy` | `resolve_url`, the same-host test |
| `SubresourceScanner.dfy`, `TagPositions.dfy` | incremental and batch discovery of subresource URLs; tags by their positions |
| `Http2Client.dfy`, `Targets.dfy` | frame, header and data callbacks, request submission, re-arming; what a request asks for |
| `Scheduler.dfy`, `SchedulerInvariant.dfy`, `SchedulerResults.dfy` | the scheduler, what each of its steps keeps, what that means |
| `PageHop.dfy`, `PageRun.dfy`, `PageSources.dfy` | client, scheduler and event loop together; properties of whole page runs; where results come from |
| `LoopEnds.dfy` | when the event loops end |
| `SingleHop.dfy` | the event loop of a plain fetch |
| `Lifecycle.dfy` | sockets, TLS handles and clients: who owns them, how they are acquired and released |
| `SingleFetch.dfy` | `fetch_one`: connection reuse, one request, the redirect loop, and which stream an answer comes from |
| `PageFetch.dfy`, `PageLoop.dfy` | `fetch_with_runtime_subresources`: one hop, what is fetched after the page, and the loop over hops |
| `FurtherUrls.dfy`, `Picking.dfy` | which URLs are fetched after the page, and what it is to take elements of a list in order |
| `Requests.dfy` | what the requests of whole fetches ask for |
| `FetchErrors.dfy` | what the error of a result says |
| `PageAnswers.dfy` | what the results of a page hop hold, and which of its streams are open |
| `PageResults.dfy` | what a caller can tell from the result of a page fetch |
| `OpenStreams.dfy` | which streams are open on the connections, and when an answer is the request's own for that |
| `Fetcher.dfy` | `fetch_multi` |
| `Scenarios.dfy` | runs that occur: a clean page, and one run for each promise that is not kept |
| `ConnectRace.dfy` | `try_connect`, `happy_eyeballs_connect` and its drainer |
| `Socks5.dfy` | the proxy handshake over a fragmenting byte stream |
| `Catalog.dfy`, `CatalogOrder.dfy` | the catalog of present resources and the run's numbering |
| `Encoders.dfy`, `Bytes.dfy` | JSON escaping, ALPN and SETTINGS encoding |

The environment is explicit. The HTTP/2 library is a sequence of events and an arbitrary function from submissions to
stream ids; `FreshIds` says that ids only grow, `EndsOnce` that no stream ends twice. `Admissible` says that the
library ends only streams that are open in this hop; `Plain` says that an event is no GOAWAY and no redirect. DNS,
connect, proxy, TLS and receives are answers of an arbitrary `Environment`, one per question asked, and the number of
questions asked so far is the clock: records of hops and fetches say which answers they used, in increasing order.
`World.asked` holds every request made, with its connection, in order of time; what is told of fetches is told with
exactly the requests they made. Tag patterns, decoders and challenge-script discovery are function parameters.

## What the code does that its description does not say

Each of these is a lemma, with the exact condition where there is one.

- `resolve_url` tests one leading slash before two, so a scheme-relative reference becomes a path on the page's own
  host (`Resolver.SchemeRelativeBecomesPath`).
- With the declared default port, `http` URLs get port 443 (`UrlParser.HttpGets443`).
- The `:authority` of a bare IPv6 host is cut at its first colon (`Http2Client.AuthorityIsHost`).
- A stream left over from an earlier request on a reused connection breaks the scheduler's stream counter
  (`SchedulerResults.CountSurvivesExactly`) and can end the page too early, with a subresource still open
  (`SchedulerResults.LeftoverStopsEarly`, as a run `Scenarios.LeftoverRun`).
- Such a stream can also answer a plain fetch: the response returned for a URL is that of its request exactly if the last
  stream that ended with a response is the request's own, and likewise for a redirect (`SingleFetch.FetchIsExplained`, as a
  run `Scenarios.LeftoverAnswers`). It is so whenever no stream is open on the connection in hand before the call
  (`OpenStreams.FetchAnswersItself`), as after a clean page (`OpenStreams.CleanPageClosesAll`).
- A redirect on any stream moves the page: the next page URL is the page's own Location exactly if the last redirect of
  the hop is on the page's stream (`PageResults.NextUrlIsLocation`, as a run `Scenarios.ScriptMovesPage`), and if nothing
  comes of the next hop, the page of an earlier one is returned (`PageResults.FinishedReturns`, as a run
  `Scenarios.EarlierPageReturned`).
- The scanner reads the page's payloads as received: a compressed page is scanned compressed
  (`PageRun.PrimaryDelivered`).
- Windows do not overlap, so a tag across a cut is lost; incremental and batch discovery agree exactly when none is
  (`SubresourceScanner.IncrementalRefinesBatch`, `TagPositions.UncutTagsAreFound`, `SubresourceScanner.CutLosesTag`).
- `fetcher.h` says that an error is set when `ok` is false. A page fetch returns both `ok` and an error exactly when it
  did not finish after the page of one of its hops had arrived: it hit the redirect limit, could not make its next
  request, or timed out (`PageResults.OkWithError`, as a run `Scenarios.LimitAfterPage`). A plain fetch never does
  (`SingleFetch.FetchOne`).
- Request numbers start at 1 again after a redirect, while results of the earlier hop are kept: they are distinct exactly
  when no two earlier hops use the same number and none a number that the last one uses (`PageResults.NumbersRestart`, as
  a run `Scenarios.NumberOneTwice`).
- The SOCKS5 client ignores the version octets of the sub-negotiation and CONNECT replies: `Socks5.ValidReplies`
  leaves them free.

## Model

| member | source | states |
|---|---|---|
| `PageRun.FinishedPage` | fetcher.cpp:405-494 | Main result. After any admissible run of a page hop without GOAWAY or redirect that has stopped, whatever the chunking and interleaving: the page is recorded under number 0; the results are numbered 1 to n without gap or repetition, one per accepted submission; what is still queued is exactly what was offered of other hosts, in order; and each URL the scanner returned is in exactly one of queue, results, refused submissions |
| `PageRun.RunKeepsInv` | fetcher.cpp:380-495 | Every admissible run of client and scheduler steps keeps the invariant: accepted URLs are the disjoint union of queue and dispatched, each submitted once; the three stream tables share their keys; the counter equals the open streams |
| `PageRun.PlainRunStopsWhenAllEnded` | fetcher.cpp:460-494 | In a redirect-free run the loop is stopped exactly when no stream of the hop is open, and the number of completions is the number of ended streams |
| `PageRun.StopWithinCap` | fetcher.cpp:442-448 | With a cap n >= 1 a hop makes at most 1 + n submissions and sees at most 1 + n completions; 1 + n minus completions is a termination measure |
| `PageRun.PolicyReachesStop` | fetcher.cpp:492-493 | From any state of a run, an environment that keeps ending open streams, in any order, stops the loop within that measure |
| `PageRun.CanEndOne` | HTTP2_Client/http2_client.cpp:129-165 | Such an environment exists wherever some open stream does not hold the headers of a redirect |
| `PageRun.RunContinues` | fetcher.cpp:414-443 | Over any run at all, admissible or not, each request the scheduler submits is for the page's host, under the client's authority, asks for the path and query that its own URL names, and none is submitted after GOAWAY (section 6.8 of RFC 9113) |
| `PageRun.RunIsSorted` | fetcher.cpp:414-452 | Without GOAWAY, at every moment the submissions are the offered same-host URLs in the order offered, and the queue is the offered others in the order offered |
| `PageRun.OfferedIsScanned` | fetcher.cpp:454-471 | What was offered to the queue over a run is what one scanner returns for the run's body chunks and its end |
| `PageRun.ScannedBody` | fetcher.cpp:454-458 | Until the page ends, the scanner has been fed exactly the DATA payloads of the page's own stream, in order |
| `PageRun.PrimaryDelivered` | fetcher.cpp:454-471 | At the end of the page the recorded body is the decoded concatenation of its DATA payloads, while the URLs offered are an incremental scan of the payloads as received, before decoding |
| `PageAnswers.RunAnswers` | fetcher.cpp:460-490 | Over any run in which no stream ends twice, every result of the hop, and the page, holds the decoded response of the very stream it names: that stream's last header values and its DATA in order |
| `PageAnswers.RunUnended` | fetcher.cpp:431-490 | At every moment of a plain run, the open streams are exactly those that the hop's requests got and that have not ended; no other stream has ended, and none twice |
| `PageAnswers.FinishedPageAnswers` | fetcher.cpp:454-494 | Main result. A hop without GOAWAY or redirect that has stopped has left no stream open: exactly the streams of its requests have ended, once each, and each of its results, the page first, is the response of its own stream |
| `PageRun.PageMatchesBatch` | challenge_scripts.cpp:186-212 | The URLs offered for a streamed page equal those of a batch scan of the received body exactly when the windows hold the candidates of the whole |
| `PageRun.PrimaryIsPage` | fetcher.cpp:466-471 | Once the page's stream has ended, the primary result is ok, without error, carries the page's URL and stream and number 0, for the rest of the run |
| `PageRun.PrimaryUntouched` | fetcher.cpp:466-490 | Until then, the primary result is what it was before the hop |
| `PageRun.ResultsKept` | fetcher.cpp:472-489 | Results are only ever added: over any run, what was recorded before the hop stays in place |
| `PageRun.HopRedirectedTo` | HTTP2_Client/http2_client.cpp:136-152 | The URL a page hop redirects to is the resolved Location of the last redirect among its frames, on whatever stream; there is none if no frame ended one |
| `PageRun.RedirectIsOwnExactly` | HTTP2_Client/http2_client.cpp:136-152 | The redirect the client took is that of the page's own stream if and only if the last redirect among the frames is on that stream |
| `PageRun.RedirectLeavesScheduler` | HTTP2_Client/http2_client.cpp:136-152 | A redirect at the end of any stream stops the loop and leaves the scheduler as it was: the stream is never completed |
| `PageRun.LoopIsHopRun` | HTTP2_Client/http2_client.cpp:291-336 | However frames are cut into receives, the page's event loop is one run over the events it saw; it answers false only at the timeout with the client still running |
| `PageRun.StepKeepsInv` | fetcher.cpp:454-494 | One event of the library, with the scheduler's answer to it, keeps the invariant if it ends no stream that is not open |
| `PageRun.CompletionCounts` | fetcher.cpp:460-494 | The end of an open stream raises the completion count by exactly one |
| `PageRun.HopResponses` | HTTP2_Client/http2_client.cpp:130-202 | The scheduler never disturbs response assembly: in a page run the client holds the same responses as without a scheduler |
| `PageSources.ResultsAreOfItems` | fetcher.cpp:445-489 | Each result that a hop records is that of an item which its scanner returned: the URL is the item's, the discovery source the one the item was found by, "other" if that is empty, and the role subresource |
| `PageSources.UnknownIsRecorded` | fetcher.cpp:472-490 | The end of a stream that the hop does not know is recorded as well: under the page's URL and number 0, with source "other" |
| `PageSources.StopsExactly` | fetcher.cpp:464-493 | Whatever streams end and whatever was received: apart from GOAWAY and redirects, an event stops the loop exactly if it ends a stream, the page's own stream has ended and the counter is 0 |
| `LoopEnds.SingleLoopEnds` | HTTP2_Client/http2_client.cpp:291-336 | The event loop of a plain fetch takes exactly the turns before the first that comes late, after a broken one, or after its stop; it answers false exactly if it still runs and the next turn's clock has reached a positive timeout |
| `LoopEnds.PageLoopEnds` | HTTP2_Client/http2_client.cpp:291-336 | The same of the event loop of a page hop |
| `SchedulerInvariant.InvAtStart` | fetcher.cpp:601-604 | The invariant holds when the event loop is entered with the page's request alone |
| `SchedulerInvariant.EnqueueTakesAll` | fetcher.cpp:405-412 | Under the invariant the duplicate test never fires: every item the scanner returns is queued, in order |
| `SchedulerInvariant.ItemNotDispatched` | fetcher.cpp:424-426 | Under the invariant the drop branch for already dispatched URLs is never taken |
| `SchedulerInvariant.DispatchAllKeepsInv` | fetcher.cpp:414-452 | A whole pass over the queue, with any mixture of hosts, refusals and stream ids, keeps the invariant and moves the counter exactly with the table of open streams |
| `SchedulerInvariant.BodyChunkKeepsInv` | fetcher.cpp:454-458 | A body chunk of any stream, at any time, keeps the invariant |
| `SchedulerInvariant.CompletionKeepsInv` | fetcher.cpp:460-494 | The end of an open stream keeps the invariant |
| `SchedulerInvariant.PrimaryIsNotInTable` | fetcher.cpp:466-472 | The page's own stream is never in the table of subresource streams |
| `SchedulerInvariant.AcceptKeepsSettled` | fetcher.cpp:405-412 | Queueing what the scanner newly accepted keeps accepted = pending + dispatched, disjoint |
| `SchedulerResults.StopMeansAllEnded` | fetcher.cpp:492-493 | The verdict of a completed open stream is true exactly when no stream of the hop is left open |
| `SchedulerResults.CountSurvivesExactly` | fetcher.cpp:464-490 | The counter stays correct after the report of an ended stream if and only if the stream was one of the hop's open streams or the counter was already 0; a stream left over on a reused connection breaks it |
| `SchedulerResults.LeftoverStopsEarly` | fetcher.cpp:464-493 | Its harm, with or without GOAWAY: with one subresource open and nothing more to submit on the page's host, the end of any stream that is not of the hop and then of the page give the verdict to stop, with the subresource still open |
| `SchedulerResults.OneFatePerUrl` | fetcher.cpp:405-494 | At every moment each URL the scanner accepted is in exactly one of: queue, open stream, recorded result, refused submission |
| `SchedulerResults.HopWithinCap` | challenge_scripts.cpp:125-133 | At every moment submissions, and completed plus open streams, number at most 1 + cap |
| `SchedulerResults.ResultsNumberedOnce` | fetcher.cpp:445-489 | When all streams have ended, the results carry the numbers 1 to n, each once |
| `SchedulerResults.DispatchAllOrder` | fetcher.cpp:414-452 | One pass submits exactly the queued same-host items, in queue order, and keeps exactly the others, in queue order |
| `SchedulerResults.DispatchAllBalance` | fetcher.cpp:414-452 | A pass keeps counter and open-stream table in step even when earlier results break the invariant |
| `SchedulerResults.DistinctUrlsCard` | fetcher.cpp:425-443 | Distinct submitted URLs and submissions after the page number the same |
| `Scheduler.RuntimeSubresourceState.constructor` | fetcher.cpp:402-403 | A new state holds nothing, has no primary stream and keeps what the batch already holds |
| `Scheduler.RuntimeSubresourceState.Begin` | fetcher.cpp:601-604 | Fixes the page's stream, numbers from 1, one open stream |
| `Scheduler.RuntimeSubresourceState.EnqueueItems` | fetcher.cpp:405-412 | The in-place loop computes the specified queue |
| `Scheduler.RuntimeSubresourceState.DispatchSameHost` | fetcher.cpp:414-452 | The in-place pass computes the specified state and submissions; after GOAWAY it does nothing |
| `Scheduler.RuntimeSubresourceState.SubmitItem` | fetcher.cpp:425-448 | Marks dispatched, submits, and opens the stream only if the library accepted it; what is submitted is for the item's own URL, as `PageRun.RunContinues` says of every run |
| `Scheduler.RuntimeSubresourceState.OpenStream` | fetcher.cpp:445-448 | Enters URL, source and number of the stream and counts it |
| `Scheduler.RuntimeSubresourceState.BodyChunk` | fetcher.cpp:454-458 | The in-place callback computes the specified step; chunks of other streams and late ones are ignored |
| `Scheduler.RuntimeSubresourceState.SettlePrimary` | fetcher.cpp:466-471 | Records the page, then scans the rest |
| `Scheduler.RuntimeSubresourceState.SettleSubresource` | fetcher.cpp:472-490 | Records a subresource under its URL, source and number and forgets its stream; unknown streams get the page's URL, "other" and 0 |
| `Scheduler.RuntimeSubresourceState.StreamComplete` | fetcher.cpp:460-494 | The in-place callback computes the specified state, submissions and verdict |
| `PageHop.OnCallback` | HTTP2_Client/http2_client.cpp:154-163 | Client callback and registered scheduler callback together are one step of the page hop; the verdict stops the client |
| `PageHop.RunEventLoop` | HTTP2_Client/http2_client.cpp:291-336 | The page's event loop in place computes the specified run and answer |
| `SubresourceScanner.ReturnedOnceWithinCap` | challenge_scripts.cpp:118-135 | Over any sequence of feeds and finalizes, no URL is returned twice, the count never exceeds a positive cap, and count and seen set are exactly what was returned |
| `SubresourceScanner.SecondFinalizeIsEmpty` | challenge_scripts.cpp:209-212 | A second finalize returns nothing and changes nothing |
| `SubresourceScanner.FinalizeStaysAtCut` | challenge_scripts.cpp:209-212 | A finalize leaves what was received and the cursor as they are |
| `SubresourceScanner.WindowsReachTheCut` | challenge_scripts.cpp:197-207 | For every chunking, the windows scanned so far are, in order, the received text up to the cut (`SubresourceScanner.WindowsEnd2048Behind` says where that is) |
| `SubresourceScanner.WindowsEnd2048Behind` | challenge_scripts.cpp:197-207 | For every chunking of n characters, the windows scanned before the end are together the first n - 2048 characters, and none if n is at most 2048 |
| `SubresourceScanner.CursorIs2048Behind` | challenge_scripts.cpp:197-207 | After any feeds that stay below the cap, the cursor is exactly 2048 behind the length received, and 0 up to that length |
| `SubresourceScanner.ShortIsOneWindow` | challenge_scripts.cpp:197-212 | For every chunking of 1 to 2048 characters, the whole text is one window, scanned at the end |
| `SubresourceScanner.ShortDocumentsAgree` | challenge_scripts.cpp:175-212 | For every document of 1 to 2048 characters, every chunking and all patterns, incremental and batch scan return the same URLs if the cap can hold them, with no condition on tags |
| `SubresourceScanner.WindowsTile` | challenge_scripts.cpp:197-212 | For every chunking, the windows including the last tile the document: no gap, no overlap |
| `SubresourceScanner.FeedAllMeaning` | challenge_scripts.cpp:197-207 | While the cap is not reached the buffer is the concatenation of the chunks, the cursor is at the cut, and the URLs returned are those of the windows |
| `SubresourceScanner.IncrementalIsWindowUrls` | challenge_scripts.cpp:189-212 | If the cap can hold them, the URLs of a whole incremental scan are exactly those of the windows |
| `SubresourceScanner.BatchIsDocumentUrls` | challenge_scripts.cpp:175-184 | If the cap can hold them, the URLs of a batch scan are exactly those of the document |
| `SubresourceScanner.IncrementalRefinesBatch` | challenge_scripts.cpp:175-212 | Incremental and batch scan return the same URLs if and only if the windows hold the same candidates as the document, for every chunking |
| `TagPositions.UncutTagsAreFound` | challenge_scripts.cpp:175-212 | In terms of where tags stand: if the patterns find in a text what they find in its parts wherever no match crosses, and no tag lies across a cut, then scanning chunk by chunk finds the URLs of a scan of the whole |
| `TagPositions.FixedTextIsLocal` | challenge_scripts.cpp:66-86 | A pattern that is one fixed text is local in this sense |
| `TagPositions.BothAreLocal` | challenge_scripts.cpp:78-86 | And so are patterns that list their matches one after the other |
| `SubresourceScanner.CutLosesTag` | challenge_scripts.cpp:197-212 | A document of 2049 characters that is one tag: incremental scanning finds nothing, batch scanning its URL |
| `SubresourceScanner.ResolveNewIsNew` | challenge_scripts.cpp:118-135 | One pass returns each new URL once and none of the old ones, and stops at the cap |
| `SubresourceScanner.ResolveNewCovers` | challenge_scripts.cpp:118-135 | One pass returns only what its candidates stand for, and all of it unless the cap was reached |
| `SubresourceScanner.SourceIsFromCandidate` | challenge_scripts.cpp:125-131 | Each item returned carries the discovery source of a candidate that resolves to its URL |
| `SubresourceScanner.ResolveNewInOrder` | challenge_scripts.cpp:118-135 | One pass, told by positions: it returns, in the order of the candidates, the first candidate for each new URL that can be fetched, each with its own source, up to the one that fills the cap, and nothing else |
| `SubresourceScanner.FetchableExactly` | challenge_scripts.cpp:53-63 | Exactly empty references, fragments and six schemes, in whatever case, are passed over |
| `SubresourceScanner.ResolveNewCandidates` | challenge_scripts.cpp:118-135 | The loop over by-reference arguments computes the specified pass |
| `SubresourceScanner.DiscoverSubresourceUrls` | challenge_scripts.cpp:175-184 | Batch discovery is one pass over the whole document |
| `SubresourceScanner.IncrementalSubresourceScanner.ScanWindowAt` | challenge_scripts.cpp:189-195 | The in-place window scan computes the specified state and items |
| `SubresourceScanner.IncrementalSubresourceScanner.FeedChunk` | challenge_scripts.cpp:197-207 | The in-place feed computes the specified state and items; at the cap it does not even buffer |
| `SubresourceScanner.IncrementalSubresourceScanner.FinalizeScan` | challenge_scripts.cpp:209-212 | The in-place finalize computes the specified state and items; it does not move the cursor |
| `Http2Client.AssembledPerStream` | HTTP2_Client/http2_client.cpp:130-202 | Over every interleaving, until a stream ends its response is exactly its own last header values and its own DATA payloads in order |
| `Http2Client.LastValueWins` | HTTP2_Client/http2_client.cpp:172-183 | A header name maps to the value of the stream's last HEADERS field of that name, and to nothing if there was none |
| `Http2Client.DeliveredResponse` | HTTP2_Client/http2_client.cpp:130-167 | At the end of a stream: either a redirect and a stop, to its Location as `Http2Client.LocationLeads` tells it, or the decoded response is handed on |
| `Http2Client.StatusDecides` | HTTP2_Client/http2_client.cpp:130-156 | The end of a stream is followed as a redirect exactly if its status is one of 301, 302, 303, 307, 308 and it has a Location; the URL followed is a whole Location itself, one that starts with // behind "https:", and a root-relative one behind "https://" and the host; the client stops and hands nothing on; anything else is handed on and stops nothing |
| `Http2Client.HandedOn` | HTTP2_Client/http2_client.cpp:88-112 | What is handed on at the end of any other stream has the headers received, and the body inflated for gzip and deflate, decoded by brotli for br, and as received otherwise |
| `Http2Client.FramesThatEnd` | HTTP2_Client/http2_client.cpp:130-131 | A frame ends its stream exactly if its stream id is positive, it is a HEADERS or DATA frame, and it carries END_STREAM |
| `Http2Client.LocationLeads` | HTTP2_Client/http2_client.cpp:144-154 | At every redirect among the frames, where it leads is told from the Location text alone |
| `Http2Client.WholeUrlIsFollowed` | HTTP2_Client/http2_client.cpp:144-154 | A Location that is the printed form of well-formed components leads to a URL that parses to exactly their host and path |
| `Http2Client.AuthorityStopsAtColon` | HTTP2_Client/http2_client.cpp:244-248 | The authority sent is the part of the host before its first colon |
| `Http2Client.OthersDoNotInterfere` | HTTP2_Client/http2_client.cpp:130-202 | Two interleavings that agree on a stream's own events deliver the same response for it |
| `Http2Client.GoawayIsPermanent` | HTTP2_Client/http2_client.cpp:67-78 | The client knows of GOAWAY exactly if it has received one; re-arming does not clear it |
| `Http2Client.AuthorityIsHost` | HTTP2_Client/http2_client.cpp:244-248 | The authority sent is the client's host if and only if that host has no colon; a bare IPv6 host is truncated |
| `Http2Client.RootRelativeStaysOnHost` | HTTP2_Client/http2_client.cpp:146-149 | A root-relative redirect leads back to the client's host if and only if that host string reads back as itself |
| `Http2Client.Client.ResetForRequest` | HTTP2_Client/http2_client.cpp:67-78 | Re-arms running, redirect and responses, keeps GOAWAY |
| `Http2Client.Client.SendHeader` | HTTP2_Client/http2_client.cpp:236-288 | Submits one request: target with query, authority without port, the library's answer; `Targets.ParsedIsHonest` says what that target is |
| `Http2Client.Client.PerformDecompression` | HTTP2_Client/http2_client.cpp:88-112 | Replaces only the stream's body, by the decoder its content encoding names |
| `Http2Client.Client.OnFrameRecv` | HTTP2_Client/http2_client.cpp:114-170 | The frame callback computes the specified step, for which `Http2Client.StatusDecides`, `Http2Client.HandedOn` and `Http2Client.FramesThatEnd` say what it is |
| `Http2Client.Client.OnCallback` | HTTP2_Client/http2_client.cpp:114-202 | Each callback computes the specified step |
| `Targets.ParsedIsHonest` | HTTP2_Client/http2_client.cpp:236-242 | What is submitted for a parsed URL asks for the path that the URL names, however it is put together, "/" if that is empty, then "?" and its query if that is not empty (section 8.3.1 of RFC 9113), and is for the host it names |
| `Targets.HonestAsksForComponents` | HTTP2_Client/http2_client.cpp:236-242 | So for a URL printed from well-formed components: the printed host, path and query, and never the fragment |
| `SingleHop.TimeoutMeansNothingTerminal` | HTTP2_Client/http2_client.cpp:291-306 | The event loop answers false only at a timeout, and then neither a response nor a redirect nor GOAWAY has arrived since the request |
| `SingleHop.LoopIsRun` | HTTP2_Client/http2_client.cpp:308-313 | However frames are cut into receives, the loop is one run over the events it saw |
| `SingleHop.RedirectWasReceived` | HTTP2_Client/http2_client.cpp:136-152 | A redirect URL is the resolved Location of a redirect response received in that hop |
| `SingleHop.ResponseWasReceived` | fetcher.cpp:243-264 | A captured response is one that the client handed on at the end of a stream in that hop |
| `SingleHop.Provenance` | HTTP2_Client/http2_client.cpp:130-167 | What a hop has captured is the decoded response of the last stream that ended in one among its frames, and what it follows the Location of the last stream that ended in a redirect; nothing if there was none |
| `SingleHop.AnswerIsOwnExactly` | fetcher.cpp:243-251 | A captured response is that of a given stream if and only if the last stream that ended with a response is that stream |
| `SingleHop.RedirectIsOwn` | HTTP2_Client/http2_client.cpp:136-152 | The redirect taken is that of a given stream if and only if the last stream that ended with a redirect is that stream |
| `SingleHop.CapturedIsAssembled` | fetcher.cpp:243-264 | The captured response of a stream that had not ended before is its last header values and the decoded concatenation of its DATA payloads |
| `SingleHop.RunSingleLoop` | HTTP2_Client/http2_client.cpp:291-336 | The event loop with the capturing callback computes the specified run and answer |
| `Lifecycle.Teardown` | fetcher.cpp:120-136 | Releases what the connection holds, each once, the client while its TLS handle is live, then TLS, then socket; afterwards it holds nothing, and a second teardown releases nothing |
| `Lifecycle.World.Release` | fetcher.cpp:120-131 | Only an open handle can be released, a client only before its TLS handle; acquired = released + open is kept |
| `Lifecycle.Record` | HTTP2_Client/http2_client.cpp:236-288 | What a client has newly logged is entered among all requests made, so that these are, connection by connection, what the clients have logged |
| `Lifecycle.NothingLeft` | fetcher.cpp:696-740 | When a cleared connection owns all that is open, every handle acquired has been released exactly once |
| `Lifecycle.Establish` | fetcher.cpp:166-227 | Succeeds or fails as the answers of DNS and connect, proxy and TLS say; then either the connection is up for the URL's host and port, with a new client for h2, or everything acquired on the way is released |
| `Lifecycle.Acquire` | fetcher.cpp:169-227 | The same from a cleared connection |
| `Lifecycle.Reach` | fetcher.cpp:166-220 | Socket, tunnel and TLS in order, stopping at the first failure; whatever fails, the connection owns exactly what is open |
| `Lifecycle.Tunnel` | fetcher.cpp:183-203 | A proxied target port outside 1 to 65535 is refused before the proxy is spoken to, and only that |
| `Lifecycle.StartTls` | fetcher.cpp:214-220 | A failed handshake leaves no TLS handle behind |
| `Lifecycle.Adopt` | fetcher.cpp:222-227 | The live connection takes on host and port, and a client exactly for h2 |
| `Lifecycle.WayExactly` | fetcher.cpp:169-227 | A connection comes about exactly if each step answers well; the error names the first that does not: connect, the proxy's port and handshake, TLS setup, TLS handshake; without a proxy neither is asked |
| `Lifecycle.LeadingDigits` | fetcher.cpp:187-190 | The port number read from a text is the number its leading digits stand for, whatever follows them, and 0 if that does not fit an int |
| `SingleFetch.Prepare` | fetcher.cpp:162-231 | Exactly a connection to the same host and port that speaks h2, without proxy, and has seen no GOAWAY is reused and left as it is; otherwise a new one is made, or there is an error, the one the answers call for, and nothing is open |
| `SingleFetch.Reaching` | fetcher.cpp:153-241 | A hop makes a request exactly if its URL parses, a connection is there or can be made, and it speaks h2; else its error is the one of the first step that failed |
| `SingleFetch.Request` | fetcher.cpp:243-287 | Exactly one request, logged with the client's host and authority, before GOAWAY, and under the stream id the library gave it; the outcome is refusal or what the event loop makes of the frames received |
| `SingleFetch.OutcomeExplained` | fetcher.cpp:274-287 | For every cut into receives, if no stream ends twice: a redirect is the Location of the last stream that ended in one, an answer the decoded response of the last stream that ended with one, silence and timeout mean that there was none |
| `SingleFetch.OutcomeIsAttributed` | fetcher.cpp:243-287 | If besides no other stream ended among the frames, an answer is the response, and a redirect the Location, of the very stream the request was given |
| `SingleFetch.AnswerIsOwn` | fetcher.cpp:243-251 | The exact condition: the captured answer is that of the request's stream if and only if the last stream that ended with a response among the frames is that stream |
| `SingleFetch.AskOn` | fetcher.cpp:266-278 | The same request with its cost: a refused or timed out one, and no other, costs the connection |
| `SingleFetch.FetchHop` | fetcher.cpp:148-286 | At most one request per turn, and exactly the one told is added to all requests made, on the connection in hand or a new one; what the turn did, its outcome and its error are determined by the moment it began, the connection it found and the answers it got |
| `SingleFetch.FetchOne` | fetcher.cpp:138-296 | Main result. At most max_redirects turns, in order of time, none using another's receive, and all requests made are exactly theirs, in order; ok exactly when there is no error; each turn but the last was answered by a redirect to the next turn's URL; final_url is the last turn's URL, ok exactly if that turn captured the result's response, and the error is that turn's |
| `SingleFetch.FetchIsExplained` | fetcher.cpp:138-296 | Main result. A fetch that returns a response, told with the requests it made: one for each turn, the first for the caller's URL, the last for final_url; each further one is for the Location that a stream ended with in the turn before, and the response is, decoded, what the last stream to end with one delivered; each is the answer to its turn's request if and only if that stream is the one the request got |
| `OpenStreams.TurnClosesItsOwn` | fetcher.cpp:243-287 | With a library that ends only open streams: a turn that is answered or redirected on a connection without other open streams is so by its own stream, and leaves none open that was not before |
| `OpenStreams.FetchAnswersItself` | fetcher.cpp:138-296 | Main result. The caller's condition, known before the call: if no stream is open on the connection in hand, a fetch that returns a response returns the answer to its own requests, redirect by redirect, and leaves the open streams as they were |
| `OpenStreams.RunsAnswerThemselves` | fetcher.cpp:719-737 | So does each of any number of fetches one after the other that return responses |
| `OpenStreams.CleanPageClosesAll` | fetcher.cpp:606-615 | A clean page hop on a connection without open streams leaves none open |
| `OpenStreams.ExtrasAnswerThemselves` | fetcher.cpp:617-663 | Main result. After a page fetch whose last hop was clean, on a connection without other open streams: if each remaining URL was answered, it was by its own request's stream, and nothing is left open |
| `SingleFetch.HopTaken` | fetcher.cpp:148-295 | One turn keeps the state of the redirect loop: follow on, finish, or return with the turn's error |
| `FetchErrors.HopErrorExactly` | fetcher.cpp:150-241 | Why a hop makes no request: each error in terms of the answers alone, both ways, for plain fetches and page hops; only the former tell a bad port from a refused tunnel |
| `FetchErrors.PlainError` | fetcher.cpp:266-295 | The error of a plain fetch by what became of its last turn: refused, timed out, answered, redirected once too often or silent |
| `Requests.PlainIsHonest` | fetcher.cpp:267 | Whatever a plain fetch comes to, each of its requests asks for the path and query that its URL names, at the host that it names |
| `PageFetch.OpenPage` | fetcher.cpp:576-604 | A page hop starts with one request, for its URL and target, entered among all requests made, on a connection to its host; with an empty scheduler and what the batch held before |
| `PageFetch.RunPage` | fetcher.cpp:606 | The event loop run over what the environment delivers keeps every request good and enters those of the scheduler among all requests made |
| `PageFetch.AskPage` | fetcher.cpp:576-615 | A turn of the page loop is one hop run from its start over the frames received, unless its one request is refused; its requests, the page's first, are exactly those added to all requests made; its outcome is timeout, redirect or done, as the run ended |
| `PageFetch.FetchPageHop` | fetcher.cpp:504-615 | The same with connecting and giving up: without a run, nothing in the batch has changed and the error is the one of the first step that failed |
| `PageFetch.FetchExtras` | fetcher.cpp:624-663 | One result per URL not fetched by the page, in order, numbered consecutively, each explained by a plain fetch of that URL of its own, one after the other in time |
| `PageLoop.FinishPage` | fetcher.cpp:617-665 | Keeps a good page result, turns none into an error, then fetches exactly the remaining queue and manual URLs; which these are is `FurtherUrls.FinishedServes` |
| `PageLoop.HopIsExplained` | fetcher.cpp:612-614 | The URL a hop of a page fetch redirects to is the Location of the last redirect among its frames |
| `PageLoop.TakePageTurn` | fetcher.cpp:504-666 | One turn keeps the state of the page loop or ends it with the result of its end |
| `PageLoop.FetchPage` | fetcher.cpp:497-670 | Main result. At most max_redirects hops, each at once upon the other; the first asks for the caller's URL, each next one for the Location of the last redirect among the frames of the one before, keeping recorded results; the result is that of the end: limit exactly used up, no request, timeout, or page done with the remaining URLs fetched |
| `PageLoop.AskedByPageFetch` | fetcher.cpp:497-670 | All requests made are exactly those of the hops and of the end, in order |
| `Requests.PageHopIsHonest` | fetcher.cpp:442-443 | Each request of a page hop, the page's own and all that the scheduler makes, asks for the path and query that its URL names, at the host that it names |
| `Requests.PageFetchIsHonest` | fetcher.cpp:497-670 | Main result. So does each request of a whole page fetch, whatever it comes to: of its hops, of a hop that was refused, and of what is fetched after the page |
| `FurtherUrls.FinishedServes` | fetcher.cpp:623-663 | Main result. A page fetch that finishes adds, to what its last hop recorded, exactly one result for each queued item and then one for each of the caller's further URLs, in their order, but none for a URL that the page already has a result for; each says how it was found ("manual" for the caller's), and its first turn is for that URL |
| `PageResults.CleanIsComplete` | fetcher.cpp:606-615 | A clean hop neither times out nor redirects, is a complete page whose results are the answers of their streams, and leaves no stream open |
| `PageResults.NumberedRun` | fetcher.cpp:639-658 | Consecutive numbers after 1 to n make 1 to n + k, each once |
| `PageResults.CleanResult` | fetcher.cpp:606-665 | A clean last hop gives a complete page and numbers 1 to n over streamed, deferred and manual results |
| `PageResults.CleanPageIsDone` | fetcher.cpp:497-670 | Main result. Whenever the last hop of a page fetch was clean, the fetch did not fail, and its caller has the complete page: result 0 ok without error, one result per accepted submission, queued URL and manual URL, numbered 1 to n; page and results of the hop hold the responses of their own streams |
| `PageResults.PageOfHops` | fetcher.cpp:466-471 | After any hops at all, the page recorded carries no error, and it is ok if and only if the page's own stream ended in one of them |
| `PageResults.OkWithError` | fetcher.cpp:497-670 | Main result. For every page fetch: it returns ok together with an error if and only if it did not finish, be it by the redirect limit, a hop without a request or a timeout, after the page of one of its hops had arrived |
| `PageResults.FinishedReturns` | fetcher.cpp:617-621 | A fetch that finishes returns the last hop's page if that hop's page stream ended, and otherwise what the hops before it left |
| `PageResults.NextUrlIsLocation` | fetcher.cpp:612-614 | Between any two hops: the next page URL is the Location of the last redirect of the hop before, and that redirect is the page's own if and only if it is on the page's stream |
| `PageResults.NextHostIsNamed` | fetcher.cpp:612-614 | If that Location is a whole URL printed from components, the next hop asks for it on a connection to the host it names |
| `FetchErrors.FinishedError` | fetcher.cpp:617-621 | A page fetch that finishes is ok exactly if the page of one of its hops arrived, and otherwise says that nothing was captured |
| `FetchErrors.HopsAllowed` | fetcher.cpp:504-668 | No more hops than max_redirects, none if that is not positive; the redirect limit is reported exactly if that ended the fetch |
| `PageResults.NumbersOfHop` | fetcher.cpp:445-489 | A hop whose ends are of open streams keeps all earlier results in place, and its own carry different numbers from 1 to the number of accepted submissions |
| `PageResults.NumbersOfHops` | fetcher.cpp:601-604 | Over any number of hops, the results recorded carry different numbers if and only if no two hops use the same one |
| `PageResults.NumbersRestart` | fetcher.cpp:601-604 | Main result. Over a whole page fetch of any number of hops, the last one clean, and all that is fetched after it: earlier results are kept in place, the last hop's are numbered 1 to n again, and all numbers are distinct if and only if no two earlier hops use the same number and none of them one up to n |
| `PageResults.ArtifactsNumberedOnce` | main.cpp:912-924 | Main result. After a page fetch of one clean hop, page, resources and catalog entries carry the numbers 0 to the last, each once |
| `Fetcher.FetchPlain` | fetcher.cpp:704-737 | A plain batch: the primary, and if it is ok one result per further URL in order, each explained by a plain fetch of its own, one after the other in time |
| `Fetcher.AskedByStory` | fetcher.cpp:678-741 | The requests a batch makes are exactly those its story tells, in order |
| `Fetcher.StoryIsHonest` | fetcher.cpp:678-741 | Main result. Each request of a batch, whatever becomes of it, asks for the path and query that its URL names, at the host that it names |
| `FurtherUrls.PlainServes` | fetcher.cpp:704-737 | A plain batch, told from the options: the primary is for the caller's URL; if it is ok, one result per further URL, in order, or if there are none and the caller asked for it, per challenge script of the page; otherwise nothing |
| `Fetcher.FetchMulti` | fetcher.cpp:678-741 | Main result. On every path nothing is left open and every socket, TLS handle and client acquired has been released exactly once; the requests made are exactly those of the story, in order, each asks for what its URL names, and they are what the clients have logged: each for its client's host, under its authority, and before GOAWAY; and the batch is what the fetches of the story explain, within the redirect limit |
| `Scenarios.SitesExist` | challenge_scripts.cpp:101-116 | The sites the following runs are about exist, at every path of every host whose name reads back as itself |
| `Scenarios.MovedSitesExist` | HTTP2_Client/http2_client.cpp:146-149 | And so do pairs of them of which one is where a root-relative Location of the other leads |
| `Scenarios.CleanPage` | fetcher.cpp:405-494 | A page with one script, found on its first chunk and answered before the page ends, is a run that meets every condition of a clean hop |
| `Scenarios.LeftoverRun` | fetcher.cpp:464-493 | A hop on a connection with a stream left open: that stream ends, then the page, and the loop stops, without GOAWAY and redirect, with the script still open |
| `Scenarios.LimitAfterPage` | fetcher.cpp:612-668 | With max_redirects 1: the page arrives, its script answers 302, and the fetch returns the page, ok, with "redirect limit reached" |
| `Scenarios.ScriptMovesPage` | fetcher.cpp:612-614 | A 302 on a script while the page is loading stops the hop, leaves the scheduler as it was and sends the page fetch to the script's Location; no redirect was on the page's own stream |
| `Scenarios.EarlierPageReturned` | fetcher.cpp:612-621 | With max_redirects 2 or more: the page arrives, its script answers 302, and the next hop, on the same connection, gets GOAWAY alone: the fetch finishes, ok, without error, with the first page |
| `Scenarios.NumberOneTwice` | fetcher.cpp:601-604 | With max_redirects 2 or more: a page with one script redirects to a page with one script, and both scripts arrive: two results, both number 1, though every hop is as it should be |
| `Scenarios.LeftoverAnswers` | fetcher.cpp:243-251 | A plain fetch on a connection with a stream left open: the rest of that stream is returned as the body for the URL, ok and without error, though nothing has come of the one request that was made |
| `ConnectRace.TryConnect` | URL_to_DNS/resolve_host.cpp:39-84 | A failed attempt leaves no socket open, a successful one exactly its own |
| `ConnectRace.HappyEyeballsConnect` | URL_to_DNS/resolve_host.cpp:97-144 | For every order and timing: fails exactly when all attempts failed; otherwise returns a success, has passed over none, and no address already connected at the start loses to a later one; it always ends |
| `ConnectRace.Sweep` | URL_to_DNS/resolve_host.cpp:119-129 | One polling round takes each ready result once, in address order, and stops at the first success |
| `ConnectRace.Drain` | URL_to_DNS/resolve_host.cpp:133-140 | Takes each remaining result exactly once and closes exactly the sockets among them |
| `ConnectRace.PollAndDrain` | URL_to_DNS/resolve_host.cpp:112-144 | Once drained, every attempt's result has been taken exactly once, and of all sockets produced exactly the returned one is open |
| `ConnectRace.RunAttempts` | URL_to_DNS/resolve_host.cpp:97-110 | Attempts run in any order leave open exactly the sockets of those that connect |
| `ConnectRace.Race` | URL_to_DNS/resolve_host.cpp:97-144 | A whole race from its first attempt to the drainer's end, for every order and timing: it fails exactly when every attempt does, otherwise returns the socket of one that connects, and that is the only socket open that was not before |
| `ConnectRace.WinnerIsNotOutstanding` | URL_to_DNS/resolve_host.cpp:131-142 | The returned socket is never among those left to the drainer |
| `Socks5.ProxyHandshake` | PROXY/proxy_socket5_handshake.cpp:40-144 | Verdict, bytes consumed and bytes sent are a function of the proxy's byte stream: fragmentation of reads and writes has no influence |
| `Socks5.RecvExact` | PROXY/proxy_socket5_handshake.cpp:10-19 | Exactly the requested bytes are taken, or all there are, however they arrive |
| `Socks5.SendAll` | PROXY/proxy_socket5_handshake.cpp:21-29 | All bytes go out in order, or as many as the socket takes |
| `Socks5.AcceptsReplies` | PROXY/proxy_socket5_handshake.cpp:62-143 | A proxy that replies by RFC 1928 and RFC 1929 is accepted, and exactly its replies are consumed: the next unread byte is the first tunnel byte |
| `Socks5.AcceptsOnlyReplies` | PROXY/proxy_socket5_handshake.cpp:62-143 | Conversely, a successful handshake has consumed exactly one well-formed list of replies, with an offered method |
| `Socks5.CredentialsOnlyOnRequest` | PROXY/proxy_socket5_handshake.cpp:76-94 | In every run, successful or not, credentials are sent only if there are some and the proxy chose method 2 |
| `Socks5.ServerReadsBack` | PROXY/proxy_socket5_handshake.cpp:50-111 | A server reading by sections 3 and 4 of RFC 1928 and section 2 of RFC 1929 gets back exactly user, password, host and port; no length byte truncates |
| `Socks5.RefusedOutright` | PROXY/proxy_socket5_handshake.cpp:43-57 | Exactly a host, user or password of more than 255 octets is refused before anything is sent, unless the socket takes nothing at all; then nothing is read either |
| `Socks5.DoSkipBound` | PROXY/proxy_socket5_handshake.cpp:125-140 | The bound address is consumed whole for its address type, or the reply refused |
| `UrlParser.ParseUrl` | URL_to_DNS/URL_Parser.cc:20-113 | The cursor walk computes the grammar's reading of the URI with its three errors and nothing else; no access is out of range |
| `UrlParser.SplitThenRecompose` | URL_to_DNS/URL_Parser.cc:25-103 | Accepted input is the in-order concatenation of its components and delimiters; path free of ? and #, query free of # |
| `UrlParser.RecomposeThenSplit` | URL_to_DNS/URL_Parser.cc:25-103 | Each well-formed list of components is the only reading of its text |
| `UrlParser.SplitsExactly` | URL_to_DNS/URL_Parser.cc:26-32 | The first two errors are raised exactly for strings that are no well-formed list of components |
| `UrlParser.SchemeExactly` | URL_to_DNS/URL_Parser.cc:26-32 | A scheme is a letter, then letters, digits, plus, minus and full stop (section 3.1 of RFC 3986) |
| `UrlParser.RejectsAuthorityExactly` | URL_to_DNS/URL_Parser.cc:48-63 | The third error is raised exactly for an unclosed bracket in host position |
| `UrlParser.AuthorityRoundTrip` | URL_to_DNS/URL_Parser.cc:48-71 | A printed userinfo, plain or bracketed host, and port read back as they were |
| `UrlParser.PrintParse` | URL_to_DNS/URL_Parser.cc:20-113 | Parsing the printed form of any well-formed components gives them back (section 3 of RFC 3986), with empty path and port filled in |
| `UrlParser.HttpGets443` | URL_to_DNS/URL_Parser.cc:105-113 | With the declared default port, an http URL without port gets 443: the branch for 80 is not reached |
| `UrlParser.PortIsGivenOrDefault` | URL_to_DNS/URL_Parser.cc:105-113 | An explicit port is returned as it is; without one, 443 |
| `UrlParser.WithoutAuthority` | URL_to_DNS/URL_Parser.cc:37-113 | A URI without // behind its scheme is accepted: no host, no userinfo, port 443 |
| `UrlParser.ParsedIsNamed` | URL_to_DNS/URL_Parser.cc:73-103 | However a URL is put together from scheme, authority, path, query and fragment: the path and the query returned are those |
| `UrlParser.HostReparses` | URL_to_DNS/URL_Parser.cc:48-71 | A host string used as an authority reads back as itself if and only if it has no @, no leading bracket and not exactly one colon |
| `UrlParser.ParseAuthority` | URL_to_DNS/URL_Parser.cc:48-71 | The in-place cuts compute the authority's reading |
| `UrlParser.ParseHier` | URL_to_DNS/URL_Parser.cc:37-113 | The cursor behind the scheme computes the rest of the reading |
| `Resolver.ResolveIdempotent` | challenge_scripts.cpp:101-116 | Resolving a resolved reference changes nothing |
| `Resolver.RelativeStaysOnHost` | challenge_scripts.cpp:101-116 | A reference that is not absolute resolves to a URL on the page's host if and only if that host string reads back as itself |
| `Resolver.SchemeRelativeBecomesPath` | challenge_scripts.cpp:105-108 | A reference starting with // becomes a path on the page's own host, whatever that is: its own branch is not reached; and the result is on that host if and only if the host string reads back as itself |
| `Resolver.ReferenceMeans` | challenge_scripts.cpp:101-116 | Against a page printed from components: an http or https URL stays, a reference with a leading slash is put behind https and the host, any other behind the host and the directory of the page's path |
| `Resolver.SameHostExactly` | fetcher.cpp:367-373 | A URL printed from components is on a host exactly if that is its host component |
| `Resolver.DirectoryWithoutSlash` | challenge_scripts.cpp:109-112 | A path without any slash is kept whole |
| `Catalog.CatalogIsComplete` | html_catalog.cpp:187-239 | The catalog's URLs, per source, are exactly those the patterns find in the page, its inline scripts and the quoted paths of both, that are catalogable and were not fetched |
| `Catalog.CatalogIsSound` | html_catalog.cpp:112-128 | Entries are numbered consecutively from the start, unique per source and URL, and never name a fetched URL |
| `Catalog.AllHitsEntered` | html_catalog.cpp:112-128 | One scan enters exactly its catalogable, unfetched matches |
| `Catalog.InlinesAllEntered` | html_catalog.cpp:212-225 | No inline script is dropped: its key is new because its index is |
| `Catalog.NoNumberTwice` | main.cpp:912-924 | In a run whose page completed in one hop, primary, results and catalog carry the numbers 0 to the last, each once |
| `Catalog.MaxIsBound` | main.cpp:918-921 | The number before the catalog's start is the least that is neither negative nor below any number in use |
| `Catalog.CatalogStart` | main.cpp:913-922 | Computes the set of fetched URLs, and one above the largest number |
| `Catalog.AddUrlEntry` | html_catalog.cpp:112-128 | The by-reference update computes the specified book |
| `Catalog.CatalogPresentResources` | html_catalog.cpp:187-239 | The scans in order compute the specified catalog |
| `CatalogOrder.CatalogInOrder` | html_catalog.cpp:187-239 | Main result. The whole catalog, entry by entry: the first match for each source and URL among the links, one entry for each inline script, the first match for each source and URL behind them that no link has called for; in that order, with their captions and bodies, and none besides |
| `CatalogOrder.CatalogableExactly` | html_catalog.cpp:80-97 | Exactly empty references, fragments and five schemes, in whatever case, are passed over; vbscript is not among them |
| `CatalogOrder.NonBlankInOrder` | html_catalog.cpp:212-217 | The inline scripts entered are those that hold more than blanks, tabs and line ends, in order |
| `CatalogOrder.PathsInOrder` | html_catalog.cpp:154-169 | The quoted paths taken are those of three characters or more outside the site's static files, in order, each with at most 48 of its characters as caption |
| `CatalogOrder.JoinedInOrder` | html_catalog.cpp:223-224 | The joined scripts are the scripts one after the other, each followed by a line end |
| `Encoders.EscapeUnescape` | main.cpp:67-89 | The escaped text is a well-formed JSON string body (section 7 of RFC 8259) that decodes to the input bytes, so it has no unescaped quote |
| `Encoders.NoRawControl` | main.cpp:67-89 | The escaped text holds no raw control byte |
| `Encoders.EscapesAreShort` | main.cpp:67-89 | Quotes, backslashes, tabs and line ends take two octets each, other control bytes six, everything else one |
| `Encoders.HexIsLowerCase` | main.cpp:68 | Hexadecimal digits are written in lower case |
| `Encoders.JsonEscape` | main.cpp:67-89 | The appending loop computes the specified escape |
| `Encoders.AlpnRoundTrip` | BORING_SSL/Profile_Loader/tls_profiles.cpp:12-19 | The wire form decodes to its list (section 3.1 of RFC 7301) if and only if every name is 1 to 255 bytes long |
| `Encoders.BuildAlpnWire` | BORING_SSL/Profile_Loader/tls_profiles.cpp:12-19 | The appending loop computes the specified wire form |
| `Encoders.SettingsRoundTrip` | BORING_SSL/Profile_Loader/tls_profiles.cpp:21-33 | The blob is six octets per setting and decodes to its settings for all 16-bit ids and 32-bit values |
| `Encoders.BuildH2SettingsBlob` | BORING_SSL/Profile_Loader/tls_profiles.cpp:21-33 | The appending loop computes the specified blob |

## Left out

- Regular expressions: each extraction is a function from a text to an ordered list of matches.
- BoringSSL, nghttp2, zlib and brotli internals: environment answers, event sequences and uninterpreted functions.
- DNS lookup and the happy-eyeballs race inside a fetch: one answer per connect in `Lifecycle`; the race itself is
  modelled on its own in `ConnectRace`, the proxy handshake on its own in `Socks5`.
- The detached drainer's interleaving with its caller: it is run at some later time, as the two share nothing but the
  attempts still out.
- Wall clocks: each turn of an event loop carries its elapsed time; waits between turns carry no other meaning.
- A loop without a timeout whose peer never ends a stream does not return in the program; the model's script of
  receives is finite and its end counts as a receive that failed.
- Integer widths of counters and numbers: `int` counters are unbounded; only the SOCKS5 length octets, the port and the
  encoders' octets are modelled with their width.
- Status code, time to first byte, content kind and stream id of plain fetches: result fields that nothing depends on.
- Cookies, request header maps, referer and profile header merging: opaque values that no decision depends on.
- `url_sources` of the scheduler: written, never read.
- Profile loading and WSAStartup failures of `fetch_multi`: they return before anything is acquired.
- `discover_challenge_scripts`: a function of body and URL, used for the extra URLs of a plain batch.
- Which streams the library may end: assumed, not proved of it (`Admissible`, `EndsOnlyOpen`); frames of a stream that
  was never asked for are part of the model all the same.
- The wording of error texts: a result's error is a value of `Problem`, with `Fine` for the empty text.
- The attempts of a race run one after another, in any order, and the poller sees each result from its own time on: the
  sockets that an attempt opens and closes again while others run are not interleaved with the polling.
- Response bodies kept in a result that is not ok: the model leaves them empty.
- Verbose logging, report files, argument parsing, vendor signatures and the Python package: formatting, I/O and data.
- Lifecycle.Acquire: the source tears down at each failing branch; the model does so at one place after them, which
  is the same sequence of releases.
