# HttpFramework: a verified model

HttpFramework is a C++ HTTP server: an accepting thread, a set of epoll sub-reactors, a
worker pool, a router, and a session store. This project models the parts of it in which
something can go wrong silently, and proves what they promise.

* **Router** (`Pattern`, `RegexMatch`, `RoutePlan`, `RouteTable`, `ParamBinding`, `RouteMeaning`). A pattern is compiled by
  string rewriting into a regular expression; most patterns take a fast path that must agree
  with it; lookups go through an index that must agree with a scan in registration order.
* **Request framing** (`UrlCodec`, `ChunkedBody`, `RequestSyntax`, `RequestTargets`, `RequestParser`,
  `RequestRoundTrip`, `RequestVerdicts`, `PartialRequest`, `ParseStability`). Where a request ends in a byte stream, what it
  means, and that two independent walkers over chunked bodies agree. Sections 6.1, 6.3 and
  7.1 of RFC 9112 and section 2.1 of RFC 3986 describe the formats.
* **Buffers** (`MemoryPool`, `ReadBuffer`). A FIFO block pool with unique ownership, and the
  read-cursor buffer of a connection in string and in block mode.
* **Connection protocol** (`SocketCompat`, `ConnectionState`, `ConnectionOwnership`,
  `ConnectionInvariant`, `ConnectionSafety`, `ConnectionSetup`, `ConnectionLiveness`,
  `HandlerRuns`, `HttpServer`). The threads as interleaved steps over the descriptor table,
  the reactors' contexts and queues, one-shot arming and in-flight counters. The kernel
  reuses descriptors as it likes. `HttpServer` is the object with its methods, each tied to
  the steps and to what the steps mean for the connections.
* **Response pipeline** (`ResponsePipeline`, `PipelineProtocol`, `PrintedPipeline`). From
  several requests in one buffer to the bytes that the peer receives, as steps of the
  connection protocol, and for well-formed requests from any pieces in which they arrive.
* **Thread pool and session file** (`ThreadPool`, `SessionFile`).

`Text` holds what several modules need of strings.

## How the concurrent parts are modelled

`ConnectionState.Step` and `ThreadPool.Step` are the steps. One step is one critical section,
or a stretch of a handler that only touches what belongs to its thread. `closeConnectionId`
and `enqueueRequestTask` are two steps each, `handleAccept` is five, and the loops of
`handleWake`, `handleTimer` and of the hang-up branch are interrupted between their rounds.
Every connection has a `uid`, the number of connections accepted before it. The program never
sees it; it is there to say which socket a descriptor, a context, a task or a response
really belongs to. An epoll event may arrive for any identity that was ever announced, as
late as one likes, so batches of events and stale events are covered. What the outside world
decides (bytes read, end of file, bytes sent, would-block, epoll failures, the clock's
judgement, the workers' order, whether the pool takes a request) is a parameter of the step.

`ResponsePipeline` follows one connection and its bytes through such runs. Its events are a
worker that finishes, a posted answer that is delivered, a socket that takes more, bytes or
the end of the stream to read, and a close by the timer or after a hang-up.
`PipelineProtocol.PipelineIsServerRun` says that these are runs of the protocol, as long as
no two answers of the connection wait for delivery at once. A run is called orderly when no
read event hands out a job, a refusal included, while another is under way.

## What the code does not promise

* A name in a pattern is bound by the position of its group, and wildcards are groups too;
  of two groups with the same name the later text stays. `ParamBinding.NamesBoundToOwnTexts`
  says exactly when every name gets its own text; `ParamBinding.WildcardTakesTheName` and
  `ParamBinding.RepeatedNameLosesText` are patterns where it does not.
* The accepting thread publishes a context before it adds the descriptor to epoll. If the
  timer (or the second look-up after a hang-up) closes it in between, the rollback of a
  failing ADD closes the descriptor a second time (`ConnectionSafety.TimerMayCloseTwice`),
  and the second close may hit a connection accepted meanwhile
  (`ConnectionSafety.RollbackMayCutAnother`). `ConnectionSafety.ClosedOnceIffRollbacksIntact`
  says that the rollback not finding its own registration is the only way, and
  `ConnectionSetup.PromptIsIntact` that it finds it whenever timer and hang-up checks spare
  the connection that is just being added. What does not hold after such a rollback is that
  tables, contexts and sockets agree; whose request, response, counter or identity something
  is holds after every run (`ConnectionOwnership`).
* The hang-up branch looks its descriptor up again without its generation, and so may close
  a connection accepted meanwhile (`ConnectionSafety.HangupMayCloseAnother`); when it does not
  is said by `ConnectionSafety.HangupClosesOwnUnlessReused`.
* After a response reading is re-armed and the next buffered request is dispatched as well.
  A further read event may then put two requests under way, and answers may be reordered or
  cut. `ResponsePipeline.ReadKeepsOrderIff` says exactly which read events may do that, and
  `PrintedPipeline.ReadEventMayReorder` that it may happen to any three printed requests.
* The end of the stream closes a connection without a look at the requests in flight, and the
  timer and the hang-up check look at the counter, not at answers that wait for delivery (nor
  does the timer look at a response being sent). A comment at `src/http/HttpServer.cpp:681-682`
  says that a peer which has shut down its writing side and waits for its answer must not lose
  it: it may lose it, because after a keep-alive answer reading is armed while the next request
  is worked on (`PrintedPipeline.EndOfStreamMayLoseAnswer`), and an answer may be dropped
  before it is sent (`PrintedPipeline.PostedAnswerMayBeDropped`).
  `ResponsePipeline.AnsweredIffUncut` says exactly when all jobs are answered completely.
* The limit on a connection's buffer (1 MiB by default, `include/http/HttpServer.h:211`, or one
  block of the pool) is checked before anything is parsed (`src/http/HttpServer.cpp:760-807`).
  So a body that `maxRequestBodyBytes_` (64 MiB) allows may be refused, and so are complete
  requests when what arrived with them is too long: the whole buffer is answered by one 413,
  and none of them is handed out (`PrintedPipeline.LongPipelineIsRefused`,
  `PrintedPipeline.HandedAreMessages`, `PrintedPipeline.MessagesThenRefusal`). The refusal
  also goes past the gate that keeps one request under way at a time
  (`PrintedPipeline.BeyondRoomIsRefused`), and may therefore break the order of answers
  (`ResponsePipeline.BusyReadMisorders`).
* A comment in the parser says that an incomplete request is waited for. It is refused with
  400 when it is cut inside its request line or inside the name of a field
  (`PartialRequest.PartialHeadWaitsIff`), and with 431 when its head is complete but the part
  of it that has arrived, body included, exceeds the limit that is meant for heads
  (`PrintedPipeline.CutWaitsIff`).
* The two bytes behind the data of a chunk are not looked at, where section 7.1 of RFC 9112
  wants a CRLF (`ChunkedBody.AcceptedIsEncoding`, `ChunkedBody.ScanOfEncoding`).
* A used block of another pool is taken in by `deallocate`
  (`MemoryPool.HttpMemoryPool.Deallocate`).
* With LF-only heads a request that parsed may parse differently once a CRLF CRLF shows up
  later in the buffer (`ParseStability.ParseStable`, `ParseStability.LfOnlyRequestChanges`).
* Keys with a colon or newline and values with a newline do not survive the session file
  (`SessionFile.RoundTripIffStorable`, `SessionFile.ColonKeyIsCut`). A comment in the source promises the restored access
  time; storing any entry overwrites it (`SessionFile.StorableRoundTrip`).

## Model

| member | source | states |
|---|---|---|
| `Pattern.PathToRegex` | src/router/RouterHandler.cpp:258-289 | for every input string the pipeline (escape, iterated find-and-replace from a moving offset, then the star replacement) produces exactly the token-by-token translation of the pattern, with the parameter names in token order |
| `Pattern.FindHitsIterator` | src/router/RouterHandler.cpp:266-283 | the find from the moving offset always hits the match the iterator is on, although the text before it has already been rewritten |
| `Pattern.EscapedTokens` | src/router/RouterHandler.cpp:263 | escaping and then substituting the placeholders is rendering the tokens of the raw pattern |
| `Pattern.StarsReplaced` | src/router/RouterHandler.cpp:286 | replacing the escaped stars in the rendered pattern touches the wildcards and nothing else |
| `Pattern.CompiledPattern` | src/router/RouterHandler.cpp:286-288 | read back as a regular expression, the produced text is the list of literal, `[^/]+` and `.*` atoms of the tokens |
| `RegexMatch.MatchIsGreedyChoice` | src/router/RouterHandler.cpp:291-301 | the greedy backtracking matcher succeeds exactly when some decomposition matches the whole path, and returns the preferred one, group by group the longest possible |
| `RoutePlan.SplitPath` | src/router/RouterHandler.cpp:34-47 | the find loop computes the pieces between slashes |
| `RoutePlan.IsPureParamSeg` | src/router/RouterHandler.cpp:21-27 | the character loop accepts exactly a colon followed by an identifier |
| `RoutePlan.MatchSegments` | src/router/RouterHandler.cpp:51-66 | the comparison loop succeeds exactly when the segments match, and collects the indices of the placeholder segments in order |
| `RoutePlan.Classify` | src/router/RouterHandler.cpp:86-130 | the two classification loops mark a pattern static, segment-wise or regex exactly by its segments |
| `RoutePlan.MakeRoute` | src/router/RouterHandler.cpp:76-138 | the constructor leaves the regex, names, segments and flags of its pattern, with nothing else |
| `RoutePlan.SegmentsMatchRegex` | src/router/RouterHandler.cpp:51-66 | on patterns of plain and placeholder segments, comparing segments and the declarative regex match accept the same paths with the same captures; the decomposition is unique |
| `RoutePlan.StaticRouteMeaning` | src/router/RouterHandler.cpp:93-112 | the regex of a static pattern accepts exactly the pattern itself, with no captures |
| `RoutePlan.SegmentRouteMeaning` | src/router/RouterHandler.cpp:86-130 | the regex of every pattern with `needsRegex == false` accepts exactly what the segment comparison accepts |
| `RoutePlan.FastFormsAreRegexMatch` | src/router/RouterHandler.cpp:83-130 | the fast forms return what the greedy regex match returns, captures included, for every path |
| `RoutePlan.NamesOfFastPattern` | src/router/RouterHandler.cpp:131-137 | the constructor's count check never fails: the names of a fast pattern are those of its placeholder segments |
| `RouteTable.Table.RebuildIndex` | src/router/RouterHandler.cpp:140-151 | the loop builds, per method, the first static route of each path and the increasing list of dynamic routes, and nothing else |
| `RouteTable.Table.MatchMethod` | src/router/RouterHandler.cpp:320-364 | hash lookup, dynamic scan and the early break at the static candidate give the first route in registration order whose regex matches, with its parameter map |
| `RouteTable.Table.FindRoute` | src/router/RouterHandler.cpp:366-382 | equal to the reference scan: first match of the method, and for HEAD first HEAD match, else first GET match |
| `RouteTable.RouterHandler.AddRoute` | src/router/RouterHandler.cpp:189-201 | copy, append, rebuild, swap: the new snapshot has one more route at the end and is indexed, the old snapshot is unchanged |
| `RouteTable.RouterHandler.HandleRequest` | src/router/RouterHandler.cpp:216-241 | a request is matched against one snapshot, with the result of the reference scan over its routes |
| `ParamBinding.NamesBoundToOwnTexts` | src/router/RouterHandler.cpp:291-302 | parameters are bound by group position, wildcards included: on every path that matches, every placeholder's name is bound to the text its own group has read, exactly when no wildcard stands before a placeholder and no name occurs twice |
| `ParamBinding.RepeatedNameLosesText` | src/router/RouterHandler.cpp:291-302 | the route of /:a/:a binds the name to the second text of /a/b; the first is lost |
| `ParamBinding.WildcardTakesTheName` | src/router/RouterHandler.cpp:291-302 | the route of /*/:id binds id to the wildcard's text on /a/b |
| `RouteMeaning.WildcardReads` | src/router/RouterHandler.cpp:286-288 | a wildcard between plain texts reads whatever stands between them, slashes included, exactly when no line terminator is among it |
| `RouteMeaning.PlaceholderReads` | src/router/RouterHandler.cpp:266-283 | a placeholder between plain texts reads whatever stands between them, exactly when that is not empty and has no slash |
| `RouteMeaning.WildcardRouteFound` | src/router/RouterHandler.cpp:366-382 | a table with one wildcard route answers exactly its method, and HEAD for GET, on exactly the paths with its plain texts at both ends and no line terminator between |
| `RouteMeaning.PlaceholderRouteFound` | src/router/RouterHandler.cpp:366-382 | a table with one placeholder route answers exactly the paths with one segment's text in its place, and binds the name to that text |
| `RouteMeaning.FoundAtOrBefore` | src/router/RouterHandler.cpp:320-364 | whatever else is registered, a path that a route matches is answered by it or by one of its method registered before it |
| `UrlCodec.UrlDecode` | src/http/HttpRequest.cpp:392-423 | the loop decodes escapes, kept slashes and plus signs exactly as specified position by position |
| `UrlCodec.DecodingKeepsSegments` | src/http/HttpRequest.cpp:303-314 | for every path, splitting the decoded path on slashes gives the decoded segments of the raw path; encoded slashes do not split |
| `UrlCodec.DecodeInvertsEncode` | src/http/HttpRequest.cpp:392-423 | decoding undoes percent-encoding of any bytes, whichever of the allowed forms each byte was written in |
| `UrlCodec.QueryRoundTrip` | src/http/HttpRequest.cpp:348-362 | query decoding inverts percent-encoding for every byte string |
| `RequestTargets.PathRoundTrip` | src/http/HttpRequest.cpp:392-423 | path decoding undoes percent-encoding, whichever characters were escaped and in which case; plus signs, escaped slashes and percent signs that begin no escape stay as they are |
| `RequestTargets.TargetPathIs` | src/http/HttpRequest.cpp:303-314 | the path of a target is the path that was encoded, with or without a query behind it |
| `RequestTargets.TargetQueriesAre` | src/http/HttpRequest.cpp:348-362 | the query of a target, whichever of the allowed ways its names and values are encoded, gives every name the value of its last item, the empty one to a name without an equals sign, and no other names |
| `ChunkedBody.ScanChunkedEnd` | src/http/HttpRequest.cpp:197-238 | the loop over 64-bit positions and totals, both of which may wrap, terminates and computes the verdict of the chunk walker |
| `ChunkedBody.ReadTrailer` | src/http/HttpRequest.cpp:213-230 | the inner loop finds the end of the trailer section or asks for more |
| `ChunkedBody.DecodeChunkedBody` | src/http/HttpRequest.cpp:240-278 | the loop collects the chunk data or rejects |
| `ChunkedBody.AcceptedIsIdeal` | src/http/HttpRequest.cpp:104-133 | scan complete and decoding successful, exactly when the walker over unbounded numbers is complete at the same offset: a size that wraps 64 bits is never accepted |
| `ChunkedBody.DecodedIsUnwrapped` | src/http/HttpRequest.cpp:240-278 | wherever the decoder succeeds the two walkers visited the same chunk boundaries |
| `ChunkedBody.ScanStable` | src/http/HttpRequest.cpp:197-238 | a verdict other than Incomplete stands whatever bytes follow |
| `ChunkedBody.DecodeStable` | src/http/HttpRequest.cpp:240-278 | decoding a complete body ignores the bytes after it |
| `ChunkedBody.ScanOfEncoding` | src/http/HttpRequest.cpp:197-238 | for any chunks, extensions, trailers and following bytes the scan is Complete at exactly the encoded length, or TooLarge exactly when the data exceeds the limit |
| `ChunkedBody.DecodeOfEncoding` | src/http/HttpRequest.cpp:240-278 | decoding inverts encoding for any split into chunks |
| `ChunkedBody.ProperPrefixIncomplete` | src/http/HttpRequest.cpp:197-238 | every proper prefix of an encoding scans as Incomplete |
| `ChunkedBody.AcceptedIsEncoding` | src/http/HttpRequest.cpp:197-278 | whatever is accepted is an encoding of at most the limit, chunk by chunk with its extensions and trailers, and decodes to its data; the two bytes behind each chunk's data are any |
| `ChunkedBody.SizeIsRead` | src/http/HttpRequest.cpp:203-217 | a chunk size is the number that its one to sixteen hexadecimal digits write, with leading zeros and in either case |
| `ChunkedBody.BadSizeIsMalformed` | src/http/HttpRequest.cpp:206-214 | anything else in place of a size is malformed, at whichever chunk it stands |
| `ChunkedBody.BigSizeIsTooLarge` | src/http/HttpRequest.cpp:233-235 | a size that exceeds what the limit leaves is too large before its data is there |
| `RequestParser.HttpRequest.ParseQueryParams` | src/http/HttpRequest.cpp:348-362 | the loop over the query string stores the decoded pairs |
| `RequestParser.HttpRequest.ParseRequestLine` | src/http/HttpRequest.cpp:280-317 | method, decoded path, query parameters and version of the line, or malformed |
| `RequestParser.HttpRequest.ParseHeaders` | src/http/HttpRequest.cpp:319-346 | the loop stores lower-cased names and trimmed values, or malformed at the first line without a name |
| `RequestParser.HttpRequest.ParseBytes` | src/http/HttpRequest.cpp:15-194 | the object's fields after parse are those of the parsing function, on every outcome |
| `RequestParser.CollectLines` | src/http/HttpRequest.cpp:45-55 | the getline loop collects the header lines up to the first empty one |
| `RequestParser.ConsumedInBounds` | src/http/HttpServer.cpp:909-927 | a parsed request consumes more than nothing and at most the buffer, so the dispatcher's bounds check is dead |
| `RequestRoundTrip.ParsePrinted` | src/http/HttpRequest.cpp:15-194 | a printed message parses to what it says and consumes exactly itself, whatever follows; its fields may stand in any order, spelling and number as long as, taken together, they announce its body |
| `RequestVerdicts.LastFieldCounts` | src/http/HttpRequest.cpp:319-346 | of the fields with one name, compared without regard to case and to nothing else, the last one counts |
| `RequestVerdicts.FieldLineReads` | src/http/HttpRequest.cpp:319-346 | a field line is its name in lower case and its value, without the blanks before, between and behind |
| `RequestVerdicts.ThreeWordsRead` | src/http/HttpRequest.cpp:280-287 | three words with any white space around them are a request line, and what stands behind them is ignored |
| `RequestVerdicts.TwoWordsAreNone` | src/http/HttpRequest.cpp:280-287 | fewer words are none |
| `RequestVerdicts.KeepsConnectionIff` | src/http/HttpRequest.cpp:451-460 | a 1.1 message keeps the connection unless its last Connection field says close, a 1.0 message only if that says keep-alive, in any case of letters, and no other version does |
| `RequestVerdicts.BothFramingsRejected` | src/http/HttpRequest.cpp:95-102 | a head with a length and a chunked coding, in any order and case, is refused as conflicting whatever follows: 400, with nothing consumed |
| `RequestVerdicts.BadLengthRejected` | src/http/HttpRequest.cpp:136-176 | a length that is no number is answered 400 |
| `RequestVerdicts.LengthDecides` | src/http/HttpRequest.cpp:136-191 | a decimal length, with leading zeros or not, is answered 400 beyond 64 bits and 413 beyond the limit; otherwise that many bytes behind the head are the body as soon as they are there, and nothing else is consumed |
| `RequestVerdicts.BadChunkSizeRejected` | src/http/HttpServer.cpp:838-861 | a bad chunk size is answered 400 at whichever chunk it stands |
| `RequestVerdicts.BigChunkRejected` | src/http/HttpServer.cpp:838-850 | a chunk that exceeds what the limit leaves is answered 413 before its data is there |
| `RequestVerdicts.LongHeadRejected` | src/http/HttpServer.cpp:892-906 | a complete message whose head exceeds the limit on heads is answered 431 |
| `RequestVerdicts.BadLineRejected` | src/http/HttpRequest.cpp:280-297 | a first line without three words, or whose third is no version, is answered 400 whatever follows |
| `RequestVerdicts.BadFieldRejected` | src/http/HttpRequest.cpp:319-346 | a head with a line that has no colon, or only blanks in front of it, is answered 400 |
| `RequestRoundTrip.FramedAnywhere` | src/http/HttpRequest.cpp:104-170 | one Content-Length or Transfer-Encoding field anywhere among others, in any letter case, announces the body |
| `RequestRoundTrip.PipelineRoundTrip` | src/http/HttpServer.cpp:909-927 | parsing the concatenation of printed messages and consuming each time gives exactly those messages in order with decoded bodies and no byte left |
| `RequestRoundTrip.PartialBodyWaits` | src/http/HttpRequest.cpp:104-191 | a complete head with a proper prefix of its body fails without any rejecting flag |
| `PartialRequest.PartialHeadWaitsIff` | src/http/HttpRequest.cpp:27-84 | a head of which bytes are missing fails without any rejecting flag exactly when its request line, and the name with the colon of the field in which it is cut, have arrived; otherwise the valid message is rejected as malformed |
| `ParseStability.ParseStable` | src/http/HttpRequest.cpp:46-191 | a parse that succeeded with a 4-byte separator gives the same result on every extension; with a 2-byte separator exactly when no CRLF CRLF appears in it |
| `ParseStability.LfOnlyRequestChanges` | src/http/HttpRequest.cpp:63-80 | every request line ended by two line feeds parses, and parses to something else once a CRLF CRLF has arrived behind it |
| `ParseStability.SeparatorStable` | src/http/HttpRequest.cpp:63-80 | the head separator stays on every extension, for LF LF exactly while there is no CRLF CRLF |
| `ParseStability.WalkersStable` | src/http/HttpRequest.cpp:104-133 | scan and decode of an accepted chunked body stay the same on every extension |
| `MemoryPool.HttpMemoryPool.constructor` | src/utils/MemoryPool.cpp:7-33 | all blocks are fresh, distinct, unused and queued in order |
| `MemoryPool.HttpMemoryPool.Allocate` | src/utils/MemoryPool.cpp:35-56 | the front of the queue becomes used, or null when it is empty; the free queue stays exactly the unused blocks without duplicates |
| `MemoryPool.HttpMemoryPool.Deallocate` | src/utils/MemoryPool.cpp:58-72 | a used block becomes unused, goes to the back of the queue and is counted down, also one of another pool, after which the pool is out of order; a null or unused block changes nothing |
| `MemoryPool.HttpMemoryPool.Reset` | src/utils/MemoryPool.cpp:74-90 | all blocks unused and queued in order |
| `MemoryPool.HttpMemoryPool.BlocksAccounted` | src/utils/MemoryPool.cpp:20-90 | used plus free is total in every valid state |
| `MemoryPool.PooledBuffer.constructor` | src/utils/MemoryPool.cpp:93-102 | takes a block of its own; every other live buffer keeps its block and stays valid |
| `MemoryPool.PooledBuffer.Move` | src/utils/MemoryPool.cpp:110-115 | the block and its contents move, the source keeps none, all other buffers are untouched |
| `MemoryPool.PooledBuffer.MoveAssign` | src/utils/MemoryPool.cpp:117-135 | as a move, the old block released first; self-assignment changes nothing |
| `MemoryPool.PooledBuffer.Destroy` | src/utils/MemoryPool.cpp:104-108 | gives its block back and leaves every other live buffer its own |
| `MemoryPool.PooledBuffer.Write` | src/utils/MemoryPool.cpp:137-147 | appends as much as fits and says how much |
| `MemoryPool.PooledBuffer.Consume` | src/utils/MemoryPool.cpp:179-188 | drops the first n bytes and moves the rest to the front |
| `ReadBuffer.HttpContext.AppendToString` | src/http/HttpContext.cpp:53-88 | the string with its read cursor takes the bytes at the back of the queue of unread bytes; the too-large flag is set exactly when the buffer exceeds its limit |
| `ReadBuffer.HttpContext.AppendPooled` | src/http/HttpContext.cpp:53-77 | takes a block at the first append; appends, sets `truncated_` exactly when the unread bytes and the new ones exceed the block, or notes that it has no block; the buffer object and its pool stay, so appends may follow one another |
| `ReadBuffer.HttpContext.ConsumeData` | src/http/HttpContext.cpp:117-130 | drops the first n unread bytes in both modes and keeps block and flags |
| `ReadBuffer.HttpContext.PeekSize` | src/http/HttpContext.cpp:90-100 | the number of unread bytes |
| `ReadBuffer.HttpContext.ResetForNextRequest` | src/http/HttpContext.cpp:32-39 | clears the flags and keeps every unread byte |
| `ReadBuffer.BlockAgreesUntilOverflow` | src/http/HttpContext.cpp:53-130 | over every sequence of appends and consumes the block model is truncated exactly when the byte queue would have exceeded the block, and holds the same bytes otherwise |
| `ReadBuffer.RunPooled` | src/http/HttpContext.cpp:53-130 | the object itself, driven through any such sequence with a block or a block to be had, is that model: truncated exactly in those runs, with the queue's bytes in all others |
| `ReadBuffer.RunString` | src/http/HttpContext.cpp:53-130 | the object in string mode, driven through any such sequence, is the byte queue |
| `ReadBuffer.QueueConserves` | src/http/HttpContext.cpp:53-130 | what was read out plus what is unread is what was there plus what was appended |
| `SocketCompat.GenerationCounter.NextConnectionGeneration` | include/utils/SocketCompat.h:42-49 | the n-th call returns the n-th generation, never 0 |
| `SocketCompat.GenerationsRepeatAfterPeriod` | include/utils/SocketCompat.h:42-49 | two registrations share a generation exactly when a multiple of 2^32 - 1 registrations lies between them |
| `ConnectionOwnership.StepOwn` | src/http/HttpServer.cpp:442-1225 | every step of the accepting thread, the reactors and the workers keeps ownership: identities, counters, queues and what is being sent belong to the connections they say, also after a descriptor was closed twice |
| `ConnectionOwnership.SubmitOwn` | src/http/HttpServer.cpp:938-974 | submitting to the pool, or taking the count back when the pool refuses, keeps every counter equal to its connection's outstanding requests |
| `ConnectionOwnership.BeginCloseOwn` | src/http/HttpServer.cpp:1177-1199 | unregistering with an identity of any age keeps ownership |
| `ConnectionOwnership.FinishCloseOwn` | src/http/HttpServer.cpp:1206-1221 | deleting, erasing, dropping and closing keep ownership, even when the descriptor belongs to another connection by now |
| `ConnectionOwnership.LeaveBalances` | include/http/HttpContext.h:84-92 | leaving takes one from the counter of the connection that the finished request came from, or from none, and the counter stays non-negative without the clamp |
| `ConnectionOwnership.DeliverOwn` | src/http/HttpServer.cpp:1066-1090 | delivering a posted response keeps ownership, whatever happened to its connection meanwhile |
| `ConnectionSafety.OwnAlways` | src/http/HttpServer.cpp:442-1225 | ownership holds after every run whatsoever |
| `ConnectionInvariant.StepKeeps` | src/http/HttpServer.cpp:442-1225 | every step keeps the agreement of tables, contexts, epoll and sockets as well, as long as a rollback finds its own registration |
| `ConnectionSafety.ReachableInv` | src/http/HttpServer.cpp:553-1225 | so this holds after every run in which all rollbacks do |
| `ConnectionSafety.CurrentResponseIsOwn` | src/http/HttpServer.cpp:1065-1090 | after every run, the response a connection is sending answers a request read from that very connection |
| `ConnectionSafety.StaleResponseIsDropped` | src/http/HttpServer.cpp:1065-1077 | after every run, a posted response passes the ownership check exactly while its own connection is bound, any context it then meets is that connection's, and otherwise it changes nothing, whoever has the descriptor now |
| `ConnectionSafety.TablesAgree` | src/http/HttpServer.cpp:588-623 | in runs whose rollbacks find their registration: a bound descriptor has a context in its owner reactor only, with the same generation, except between registering and inserting; and a context is bound, except while its reactor is closing it |
| `ConnectionSafety.SocketIsOwn` | src/http/HttpServer.cpp:588-623 | in such runs the descriptor of every context is the open socket of the context's own connection |
| `ConnectionSafety.ClosedAtMostOnce` | src/http/HttpServer.cpp:1177-1221 | in such runs every accepted connection is open and never closed, or closed exactly once, and no close hits another socket |
| `ConnectionSafety.ClosedOnceIffRollbacksIntact` | src/http/HttpServer.cpp:612-623 | over all runs, timers and hang-ups at any moment included: no connection is closed twice or about to be, exactly when every rollback after a failed epoll_ctl ADD finds its own registration in place |
| `ConnectionSetup.PromptIsIntact` | src/http/HttpServer.cpp:590-623 | while timer and hang-up checks spare the connection whose context is inserted and whose descriptor is not yet added, every rollback finds its registration |
| `ConnectionSafety.StaleCloseClosesNothing` | src/http/HttpServer.cpp:1177-1199 | after every run, closing with the identity of a connection begins the close of exactly that connection, and changes nothing once it is gone |
| `ConnectionSafety.InFlightIsOutstanding` | include/http/HttpContext.h:77-92 | after every run, the in-flight counter is the number of the connection's own tasks that have not run their leave step |
| `ConnectionSafety.LeaveNeverClamps` | include/http/HttpContext.h:84-92 | after every run, a task that leaves finds a positive counter, so the clamp never acts |
| `ConnectionSafety.TimerSparesBusyConnections` | src/http/HttpServer.cpp:1012-1045 | after every run, the timer does not close a connection that has a task queued or running, also when tasks of earlier connections on its descriptor finish meanwhile |
| `ConnectionSafety.HangupSparesBusyConnections` | src/http/HttpServer.cpp:692-700 | after every run, the hang-up branch does not close a connection that has a task queued or running, or a response to send |
| `ConnectionSafety.HangupClosesOwnUnlessReused` | src/http/HttpServer.cpp:692-700 | after every run, it closes no other connection than the one that hung up exactly when the context it finds has that one's generation, or there is none it closes: none at all, a busy one, or one that is not registered |
| `ConnectionSafety.HangupMayCloseAnother` | src/http/HttpServer.cpp:677-700 | a run in which the second look-up of the hang-up branch closes a connection that was accepted meanwhile on the same descriptor |
| `ConnectionSafety.TimerMayCloseTwice` | src/http/HttpServer.cpp:612-623 | a run in which the timer meets a connection still being added to epoll and its descriptor is closed twice |
| `ConnectionSafety.RollbackMayCutAnother` | src/http/HttpServer.cpp:612-623 | a run in which the second of these closes hits the connection accepted meanwhile on the descriptor: it stays registered, with neither context nor socket, and was never closed itself |
| `ConnectionLiveness.NoConnectionStranded` | src/http/HttpServer.cpp:711-926 | in undisturbed runs every live connection is read-armed or write-armed, or a request of its is being submitted, queued or running, or its response is queued |
| `ConnectionLiveness.WriteArmedIffSending` | src/http/HttpServer.cpp:1117-1169 | it is write-armed exactly while it has a response to send |
| `ConnectionLiveness.EventMeetsItsBranch` | src/http/HttpServer.cpp:1094-1115 | a writable event always finds a response and a readable one none: the repair branch of handleWrite and the gate of the dispatcher are dead |
| `ConnectionLiveness.NextKeepsLively` | src/http/HttpServer.cpp:711-1169 | every undisturbed step keeps this, together with the invariant |
| `HttpServer.WriteAllDataFromOffset` | src/http/HttpServer.cpp:1317-1347 | over the results of the calls of send alone: what they took before the first one that ends the loop is sent, as far as there is data, starting at the offset; fatal exactly when that one failed and data was left; done exactly when all is sent |
| `HttpServer.OwnsMeansBound` | src/http/HttpServer.cpp:465-476 | with an identity made for a connection the ownership check succeeds exactly while that connection is registered |
| `HttpServer.HttpServer.DropPendingResponses` | src/http/HttpServer.cpp:478-487 | removes exactly the responses for this descriptor and keeps the order of the others |
| `ConnectionOwnership.ExecuteOwn` | src/http/HttpServer.cpp:489-506 | a finished request, posted or not, keeps ownership: what waits in a queue names the connection it answers |
| `HttpServer.CountsOwn` | src/http/HttpServer.cpp:977-995 | with an identity made for a connection exactly that connection's counter moves, by one, if it has a context |
| `HttpServer.HttpServer.RegisterConnection` | src/http/HttpServer.cpp:442-450 | binds the descriptor under a new generation |
| `HttpServer.HttpServer.HandleAccept` | src/http/HttpServer.cpp:553-639 | one round of the loop is the run of the five set-up steps, with the rollback when ADD fails, and uninterrupted it keeps ownership and the agreement of the tables |
| `HttpServer.ClosesOwn` | src/http/HttpServer.cpp:1177-1204 | with an identity made for a connection exactly that connection is unregistered and begun to be closed, or nothing changes |
| `HttpServer.FinishedForGood` | src/http/HttpServer.cpp:1206-1221 | in a state in which tables and sockets agree, the second half leaves its connection closed exactly once, and keeps the agreement |
| `HttpServer.DispatchHandled` | src/http/HttpServer.cpp:812-927 | a connection that may be acted on is not closed; it is submitted to the pool and counted exactly when a request is there and no response is being sent, and otherwise armed for reading again unless one is |
| `HttpServer.ReadHandled` | src/http/HttpServer.cpp:723-808 | a connection that may be acted on is closed exactly at the end of its stream; it is submitted and counted exactly when bytes were refused or a request is there and no response is being sent; otherwise it is armed for reading again unless one is |
| `HttpServer.HttpServer.WriteCurrentResponse` | src/http/HttpServer.cpp:1117-1169 | a connection is closed for a failed send only when nothing was taken and the call that ended the loop failed; with bytes left it is otherwise armed for writing, that much further on in its response; complete, it is kept or closed as its answer says |
| `HttpServer.HttpServer.CollectIdle` | src/http/HttpServer.cpp:1012-1038 | the loop collects exactly the stale contexts of the reactor without requests in flight |
| `HttpServer.HttpServer.HandleTimer` | src/http/HttpServer.cpp:997-1046 | collects exactly the stale idle connections and closes them one after the other, as a run of the protocol; the object stays valid, ownership and agreement are kept |
| `HttpServer.HttpServer.HandleWake` | src/http/HttpServer.cpp:1048-1092 | swaps the queue out and delivers its items in order, as a run of the protocol; the object stays valid, ownership and agreement are kept |
| `HandlerRuns.SharesAreEqual` | src/http/HttpServer.cpp:553-623 | after every run the reactors have been given equal shares of the connections, up to one |
| `HandlerRuns.WakeIsRun` | src/http/HttpServer.cpp:1048-1092 | handleWake as a whole is a run of the protocol's steps |
| `HandlerRuns.TimerIsRun` | src/http/HttpServer.cpp:997-1046 | so is handleTimer |
| `HandlerRuns.StepsExtend` | src/http/HttpServer.cpp:997-1092 | the steps of a handler extend any run, with rollbacks as intact as before, so all results about runs hold after it |
| `HandlerRuns.StepsKeep` | src/http/HttpServer.cpp:997-1092 | they keep ownership, and, when no rollback among them misses its registration, the agreement of the tables |
| `ResponsePipeline.AnswersInOrder` | src/http/HttpServer.cpp:831-926 | over every schedule of workers, partial sends, read events, ends of stream, timer and hang-up closes in which no read event hands out a job, refusals included, while another is under way: one request of a connection is under way at a time, requests are answered in the order they were handed out, none behind one that does not keep the connection open, and the peer holds a prefix of their answers laid end to end |
| `ResponsePipeline.WireIsAllAnswers` | src/http/HttpServer.cpp:1117-1151 | when all is quiet after such a run, no send has failed and nothing was closed with a job under way, the peer has received exactly the answers to all requests handed out, and no complete request is left in the buffer unless the last answer closed the connection |
| `ResponsePipeline.AnsweredIffUncut` | src/http/HttpServer.cpp:742-751 | when all is quiet after such a run, all jobs handed out are answered completely exactly when no send has failed and no end of stream, timer or hang-up has closed the connection while a job was under way |
| `ResponsePipeline.ReadKeepsOrderIff` | src/http/HttpServer.cpp:723-926 | after such a run, a read event leaves the order safe under every continuation without further read events exactly when it does not hand out a job while another is under way |
| `ResponsePipeline.BusyReadMisorders` | src/http/HttpServer.cpp:1066-1090 | when it does, by parsing or by a refusal, there is a schedule in which the later job is answered first or its answer is loaded over the unsent earlier one; it is a run of the server |
| `ResponsePipeline.BufferIsAnswered` | src/http/HttpServer.cpp:831-926 | without further read events what the first one brought, the requests of its bytes or one refusal, is answered in its order, and when all is quiet on an open connection all of it |
| `ResponsePipeline.ReadFollowsProtocol` | src/http/HttpServer.cpp:723-808 | reading in the pipeline is handleRead of the protocol, for any server state that shows the connection: refused, parsed, submitted and armed alike |
| `ResponsePipeline.WriteFollowsProtocol` | src/http/HttpServer.cpp:1117-1169 | writing in the pipeline is the protocol's writing: the same branch, arming, offset and next request |
| `PipelineProtocol.EventIsSteps` | src/http/HttpServer.cpp:675-1169 | what an event does to the connection, a sequence of steps of the server with that connection does to its tables, contexts, queues, epoll set and sockets, closing included |
| `PipelineProtocol.PipelineIsServerRun` | src/http/HttpServer.cpp:442-1225 | every pipeline run in which no two answers wait for delivery at once, so every orderly one, is the projection of a run of the server from its start, with all rollbacks intact |
| `PrintedPipeline.JobsOfPrinted` | src/http/HttpServer.cpp:839-926 | the jobs the dispatcher takes from a printed pipeline are its messages in order |
| `PrintedPipeline.CutWaitsIff` | src/http/HttpServer.cpp:832-889 | of a valid message of which bytes are missing, the dispatcher waits for the rest exactly when it is cut behind its request line and not in the name of a field and, with a complete head, is not longer than the limit on heads; otherwise it is refused with 400 or 431 |
| `PrintedPipeline.HandedAreMessages` | src/http/HttpServer.cpp:723-927 | a printed pipeline that arrives in any pieces that the dispatcher waits for, and under any schedule, is handed out message by message in its order with no byte lost, exactly when there was room for the unread and the new bytes at every read event |
| `PrintedPipeline.MessagesThenRefusal` | src/http/HttpServer.cpp:760-808 | otherwise, when no read event hands out a job while another is under way, exactly some messages in their order, none longer than the room, and then one refusal with 413 or 503 are handed out, and nothing ever after |
| `PrintedPipeline.PrintedPipelineIsAnswered` | src/http/HttpServer.cpp:831-926 | bytes in to bytes out: when there was room, no read event handed out a request while another was under way, and nothing was cut off, exactly the messages that have arrived completely are answered in their order, or those up to the first whose answer closes the connection |
| `PrintedPipeline.LongPipelineIsRefused` | src/http/HttpServer.cpp:760-807 | more bytes than the room there is, arriving at once, are answered by one 413 or 503 that closes the connection; whatever requests they hold and whatever follows in an orderly run, nothing else is ever handed out |
| `PrintedPipeline.ReadEventMayReorder` | src/http/HttpServer.cpp:1139-1150 | whatever three requests and keep-alive answers: one more read event after the first answer lets the third answer overtake the second |
| `PrintedPipeline.EndOfStreamMayLoseAnswer` | src/http/HttpServer.cpp:742-751 | whatever two requests are pipelined and whatever their answers: an orderly run in which the end of the stream closes the connection while the second is worked on, and the peer receives the first answer only |
| `PrintedPipeline.PostedAnswerMayBeDropped` | src/http/HttpServer.cpp:1012-1045 | whatever the request and its answer: an orderly run in which the timer, or a hang-up, closes between the end of the request and the delivery of its answer, and nothing is sent |
| `ThreadPool.CounterIsQueuedPlusRunning` | src/utils/ThreadPool.cpp:52-88 | in every reachable state the counter is queued plus running tasks, except between push and fetch_add, when it is one less; it is never negative |
| `ThreadPool.StartedInOrder` | src/utils/ThreadPool.cpp:31-45 | accepted tasks are started at most once and in order of acceptance, and the rest is exactly the queue |
| `ThreadPool.NoWaiterForgotten` | src/utils/ThreadPool.cpp:57-63 | no thread is blocked in waitForAllTasks with an empty queue and a zero count unless a worker is about to notify |
| `ThreadPool.NoTaskForgotten` | src/utils/ThreadPool.cpp:79-90 | while a task is queued, not every worker sleeps with no one to wake it |
| `ThreadPool.WaitEndsExactlyWhenAllFinished` | src/utils/ThreadPool.cpp:114-119 | the wait condition holds exactly when every task accepted so far has been started and has finished |
| `ThreadPool.InvKept` | src/utils/ThreadPool.cpp:23-119 | every step of every thread keeps mutual exclusion, the accounts and both wake-up guarantees |
| `ThreadPool.Pool.EnqueueDetached` | src/utils/ThreadPool.cpp:79-90 | the locked section pushes and counts; an empty function is refused without effect |
| `ThreadPool.Pool.TakeTask` | src/utils/ThreadPool.cpp:27-46 | the worker's locked section takes the front or sleeps |
| `ThreadPool.Pool.FinishTask` | src/utils/ThreadPool.cpp:57-63 | counts down outside the lock and notifies under it exactly at zero |
| `ThreadPool.Pool.WaitForAllTasks` | src/utils/ThreadPool.cpp:114-119 | one evaluation of the wait condition |
| `SessionFile.WriteSession` | src/session/SessionStorage.cpp:199-210 | the file text, for the iteration order given |
| `SessionFile.ReadSession` | src/session/SessionStorage.cpp:241-293 | the getline loop and the rebuilding of the session |
| `SessionFile.ReadPrinted` | src/session/SessionStorage.cpp:202-205 | numbers are read back as they were printed, negative ones included, and those beyond 64 bits are refused |
| `SessionFile.NoiseIgnored` | src/session/SessionStorage.cpp:249-274 | a line without a colon, and in the head one with an unknown key, changes nothing wherever it stands |
| `SessionFile.BadNumberGivesNone` | src/session/SessionStorage.cpp:257-262 | a time that does not begin with a number gives no session, whatever follows |
| `SessionFile.NoIdNoSession` | src/session/SessionStorage.cpp:276-278 | a file without an id gives no session |
| `SessionFile.StorableRoundTrip` | src/session/SessionStorage.cpp:199-293 | id, expiration and the whole data map come back in any iteration order; the access time does when no entry touches it |
| `SessionFile.ReadIsStorable` | src/session/SessionStorage.cpp:241-274 | whatever the file, what is read has no separators in keys and no newlines |
| `SessionFile.RoundTripIffStorable` | src/session/SessionStorage.cpp:199-293 | a session's id, expiration and data survive the file exactly when its keys contain no colon or newline and its values no newline |
| `SessionFile.TwoSessionsOneFile` | src/session/SessionStorage.cpp:199-210 | a colon in a key is not told from the one behind the key: two different sessions have the same file |
| `SessionFile.ColonKeyIsCut` | src/session/SessionStorage.cpp:199-293 | a session with the key a:b comes back with the key a |

## Left out

- Sockets, epoll, eventfd, timerfd, recv and send: their outcomes are parameters of the steps.
- The clock: which contexts are stale is a parameter of `CollectIdle`; requestStart and lastActive are not modelled.
- std::regex: replaced by its meaning on the three kinds of atoms that pathToRegex produces; `.` does not match newline and carriage return, as in ECMAScript.
- Concurrent route registration: mutate loads and stores without compare-and-swap, so routes are registered by one thread.
- Middleware chains, templates, logging, statistics counters, the database layer and the application facade: plumbing or easy.
- The method enumeration: methods are strings, unknown ones included.
- Server start and stop, the drain of in-flight requests, and thread pool shutdown.
- maxConnections: a connection refused at once is never registered.
- Response text: reason phrases, dates and the headers added by the server; a response is a byte string, in `ResponsePipeline` one that begins as a status line does (src/http/HttpResponse.cpp:173-178).
- The wish to keep the connection in `ConnectionState.Execute` is any; `ResponsePipeline` ties it to the request's version and Connection header.
- The order in which handleTimer meets the contexts: any order.
- Objects for contexts in `HttpServer`: `ConnectionState.Ctx` is a value kept in the object's map, so aliasing of context pointers across a close is not captured; the read buffer's own object is `ReadBuffer.HttpContext`.
- Switching the memory pool on or off for a context that already holds data.
- rawBodySize, user data, route parameters stored in the request, header and query accessors.
- Request sizes of 2^63 bytes and more, and maxBodySize settings that large: the parser results assume both to be smaller, as the 64-bit walker needs.
- Incomplete messages with LF-only heads: the results about cuts are about messages printed with CRLF.
- Unconditional response ordering: it is false, see `ResponsePipeline.ReadKeepsOrderIff` and `PrintedPipeline.ReadEventMayReorder`.
- ConnectionSafety.TablesAgree: only for runs whose rollbacks find their registration, because `ConnectionSafety.RollbackMayCutAnother` is a run in which it is false.
- ConnectionSafety.SocketIsOwn: only for such runs, because a second close may take the socket from the connection that has it now (`ConnectionSafety.RollbackMayCutAnother`).
- ConnectionSafety.ClosedAtMostOnce: only for such runs, because it is false after every other one (`ConnectionSafety.ClosedOnceIffRollbacksIntact`).
- ConnectionSafety.ReachableInv: only for such runs, for the same reason; the half that holds after all runs is `ConnectionSafety.OwnAlways`.
- More than 2^32 - 1 accepted connections: `ConnectionSafety.Exec` stops there, because generations then repeat (`SocketCompat.GenerationsRepeatAfterPeriod`).
- The session's time points: seconds since the epoch as integers, without the conversion to the clock's own ticks.
- The thread pool's counter as a 64-bit word: it is an integer here, shown never to be negative; 2^64 tasks at once are not considered.
- A task that submits further tasks: a worker is either running or between its own steps; such a submission is a step of another client.
- ConnectionLiveness.NoConnectionStranded: assumes one event delivered and handled at a time, no error or hang-up events, no refused submission, and handlers that always post a response, because the code relies on it.
- ResponsePipeline.AnswersInOrder: the events are those of one connection whose requests the pool accepts and whose handlers always post an answer; a request that the pool refuses, as it does when it is shut down, is never answered (src/http/HttpServer.cpp:938-974).
- PipelineProtocol.PipelineIsServerRun: runs in which two answers of one connection wait at once are not covered, because handleWake takes both in one batch and the pipeline may put other events between them; orderly runs have none.
- A call of send that returns 0: it ends the loop like would-block; the source then looks at an errno that this call has not set.
- Read events without any bytes: they arm reading again and change nothing else.
