# Verified model of the STEGNAR routing system and its CALPA-NET tools

A Dafny model of the parts of the repository whose correctness is a statement about every
input or every interleaving, with proofs of those statements. `dafny verify dfyconfig.toml`
checks all of it.

## What is modelled

**Routing (`RouterState`, `Servicer`, `Protocol`, `Replies`, `Paths`, `Guarantees`).** The servicer's RPC handlers and
its background tasks share a dictionary of live streams and a counter of running scans, and
interleave only where they await. `Servicer` is the code between two awaits on mutable record
objects, and refines the functions of `RouterState` on values. `Protocol` is the whole system as a
state machine: open, receive, decide (the limiter's reply), flush, answer, abort, reaper sweep,
every await inside `_process_stream` with its possible exception, the cancellation of a call by its
client in the middle of that, settings changes, and the consumer of the queue. `Replies` follows
what the foreign calls answered and `Paths` in what order they were awaited; `Guarantees` states what
holds in every run.

**Queue and ledger (`Ledger`, `Decimal`, `DataLayer`).** A capped Redis stream with a consumer
group, a consumer that inserts then acknowledges, and the table it fills. Every command can be
done, done with its reply lost, or refused, and the consumer can restart. `DataLayer` is the
consumer's loop on mutable objects, with producers writing meanwhile, proved to be a run of `Ledger`.

**Rate limiter and hash cache (`RateLimiter`, `HashCache`, `Provenance`, `CachedResults`).** Each is a store in Redis
that must agree with the plain history of calls. `Provenance` runs the routing protocol with the
store behind its cache and the ingest jobs that also write to it: where cached scores come from, and
(`CachedResults`) that results do get there.

**Captures (`Pcap`, `Carving`).** The synthetic TCP session and a receiver for it; the JPEG carve
and the image sniff.

**Resizer (`Sums`, `Kernel`, `Normaliser`, `Imresize`).** The bicubic and bilinear image resizer over real
numbers, along one axis or two.

**Channel pruning (`Masking`, `Greedy`, `L1Order`, `Recorder`, `Networks`).** The greedy search of both
detectors and their order by L1 norm, what gathering channels means for the next layer, the recorder of trials, and the
graphs built from the recorded rates. Rates are twentieths, and the sizes they give are computed
exactly.

**JPEG coefficients (`JpegCoef`).** The copies between 8 by 8 blocks and column-major matrices, and
the quantisation tables.

## Where the code does not do what is said of it

- Events are said to be committed reliably (`data-layer/main.py:9`). A message delivered just before
  a crash, or whose insert or acknowledgement failed, is never asked for again
  (`Ledger.CrashLosesMessage`, `Ledger.AbandonedForever`), and one trimmed by the cap of 10000 before
  it was read never gets a row (`Ledger.TrimmedNeverGetsRow`, `Ledger.CapLosesMessage`).
  `Ledger.CanBeAckedIff` and `Ledger.CanGetRowIff` say of every message whether it can still be
  acknowledged, and whether it can still reach the table.
- A generation whose processing raised can have an event, when XADD was performed and its reply lost
  (`Guarantees.RaisedGenerationCanHaveAnEvent`); `Guarantees.EventPerGeneration` says that this is the only way.
- `RATE_LIMIT` is described as chunks per second. Members of the sorted set are milliseconds, so calls
  in one millisecond count once (`RateLimiter.BurstIsAllowed`, `RateLimiter.CountsChunksIff`); what is
  described holds of every history only for a limit of at most 1 (`RateLimiter.LimitCountsChunksIff`).
- With a cache lifetime that is not positive, a lookup can answer `UNKNOWN` from a hash that holds
  only a hit count (`HashCache.LookupIsLeasedIff`).
- The two detectors agree at every rate only for layers of 20 channels or more (or none): on a smaller
  layer XuNet tries an empty list where SRNet does not (`Greedy.DetectorsAgreeIff`). XuNet ends every
  search with a trial on the empty list (`Greedy.LastTrialIsEmpty`).
- Quantisation tables round-trip only when they fill the first slots and have no zero entry
  (`JpegCoef.TablesRoundTripIff`).
- The pruned XuNet can be built only for images of at least 228 rows and columns, and for rates that
  leave a channel in every layer (`Networks.XuNetBuildsIff`); the recorder accepts a rate of 1.

## Model

| member | source | states |
|---|---|---|
| `RouterState.AcceptKeepsPartition` | routing-system/servicer.py:316-330 | accepting a chunk adds exactly one chunk to the live record of its stream and keeps the partition of all accepted chunks over live records and claimed generations |
| `RouterState.ClaimKeepsPartition` | routing-system/servicer.py:338-340 | popping a live record moves all of its chunks, in order, to one new generation and leaves every other record alone |
| `RouterState.ClaimAllKeepsPartition` | routing-system/servicer.py:124-128 | claiming any list of live streams in one go keeps the partition |
| `RouterState.AcceptKeepsDescribed` | routing-system/servicer.py:316-330 | accepting a chunk keeps every record true to the chunks in it: the metadata and endpoint are those of the first, and it was last seen when the last was accepted |
| `RouterState.EveryChunkInExactlyOnePlace` | routing-system/servicer.py:118-136 | under the partition, each accepted chunk sits at one position of one place, and each position of a place holds one accepted chunk |
| `Servicer.RouterServicer.AcceptChunk` | routing-system/servicer.py:316-330 | the chunk is appended to its stream's record, which was last seen now; the shared dictionary changes as the value function says, and no claimed record object is written to |
| `Servicer.RouterServicer.FlushTouched` | routing-system/servicer.py:338-340 | a touched stream that is still live is claimed by this call; one that is gone changes nothing |
| `Servicer.RouterServicer.Sweep` | routing-system/servicer.py:118-128 | exactly the records idle for more than 5 s are claimed, each with its own record object, and the dictionary keeps the others |
| `Servicer.RouterServicer.TryAcquire` | routing-system/servicer.py:239-242 | the counter stays the number of tasks inside the dispatch; a task enters iff fewer than the limit are inside, exactly as in the protocol's slot poll |
| `Servicer.RouterServicer.Release` | routing-system/servicer.py:252-253 | leaving keeps the counter equal to the tasks inside, as the protocol's step does for a result and for an exception |
| `Servicer.RouterServicer.SyncSettings` | routing-system/servicer.py:107-116 | the limit becomes the stored integer, or stays when the value is missing, empty or not an integer |
| `Protocol.NextKeepsInv` | routing-system/servicer.py:118-347 | every enabled action of every task keeps the system invariant |
| `Protocol.RunKeepsInv` | routing-system/servicer.py:118-347 | the invariant holds after every schedule |
| `Guarantees.NoChunkLostOrDuplicated` | routing-system/servicer.py:316-341 | in every interleaving each rate-allowed chunk is in exactly one live record or claimed generation, in acceptance order, and nothing else is there |
| `Guarantees.AcceptsWhatIsAllowed` | routing-system/servicer.py:301-330 | a run accepts exactly the chunks its limiter allows, in that order and at those times |
| `Guarantees.RecordsNameTheirChunks` | routing-system/servicer.py:316-330 | in every run a record, live or claimed, names the first chunk it holds and was last seen when the last one was accepted |
| `Guarantees.SweepClaimsIdle` | routing-system/servicer.py:118-128 | in every run a sweep claims exactly the live streams whose last accepted chunk is more than 5 s old |
| `Guarantees.ClaimedIsFinal` | routing-system/servicer.py:126-136 | once claimed, the chunk list, claimant and outcome of a generation never change, and its processing never goes back |
| `Guarantees.OneClaimant` | routing-system/servicer.py:118-136 | no generation is in the hands of two tasks, and each is in the hands of one, waiting or under way, until it is over |
| `Guarantees.AnsweredCallLeftNothing` | routing-system/servicer.py:293-353 | when StreamPayload answers, none of the chunks it accepted is live, and its count is accepted plus dropped |
| `Guarantees.ScansWithinLimit` | routing-system/servicer.py:239-253 | the counter equals the number of dispatches in flight and never exceeds the largest limit ever set |
| `Guarantees.AcquiresBelowLimit` | routing-system/servicer.py:239-242 | any action that raises the counter raises it by one, below the current limit |
| `Guarantees.OverLimitOnlyDrains` | routing-system/servicer.py:107-116 | after the limit was lowered beneath the counter, the counter never rises until it is back under the limit |
| `Guarantees.EventPerGeneration` | routing-system/servicer.py:138-285 | a generation that finished has exactly one event, one not over has none, and one that raised has one iff some enabled step of the schedule answered its write with an exception although the queue had performed it |
| `Guarantees.EventIffReturned` | routing-system/servicer.py:200-213 | in a schedule that loses no reply of the queue, a generation has an event iff its processing returned |
| `Guarantees.EventTellsPath` | routing-system/servicer.py:174-285 | in every run an event says what the replies to its generation's processing told: the analyser's verdict, score, latency and model, the cached score under CACHE_HIT, or NO_IMAGE, and the builder's hash and URIs; a payload is analysed only with an image in it and passed over only without one |
| `Replies.RunKeepsTold` | routing-system/servicer.py:138-285 | along every run the phase of each generation and the entry it queued agree with the replies it has got |
| `Guarantees.ErrorsAreNotCached` | routing-system/servicer.py:261-269 | in every run no result on its way to a cache is an ERROR; that every other result is cached is `CachedResults.FinishedIsCached` |
| `Paths.FinishedAwaitedEveryCall` | routing-system/servicer.py:138-285 | in every run the calls awaited for a finished generation are one of four sequences, each ended by the queue: registry and builder, then a hit that is persisted, a miss without an image, or a miss, a slot and the analyser, with both stores after every result but ERROR |
| `Paths.DispatchedIsTheImage` | routing-system/servicer.py:199-213 | in every run what is at the analyser is the payload itself if that is an image, even when an image was carved, else what was carved, and never empty |
| `Provenance.RunKeepsKnown` | routing-system/servicer.py:174-197 | along every run of protocol, cache store and ingest jobs, every score in the store, every put and every hit has its origin |
| `Provenance.CacheHitIsEarlierResult` | routing-system/servicer.py:174-197 | in every such run an event under CACHE_HIT carries a score the analyser reported without error for a payload of the same hash, or one ingested under it; only a cache whose lifetime is not positive can also answer 0 |
| `Provenance.CacheHitIsSameBytes` | routing-system/servicer.py:169-174 | if the hash tells payloads apart, the analysed payload was the very same |
| `CachedResults.FinishedIsCached` | routing-system/servicer.py:261-263 | in every run a generation that finished with a result other than ERROR has put that result into the store under the hash of its payload |
| `CachedResults.CachedIsAnswered` | routing-system/servicer.py:174-197 | until the shorter lifetime has passed since that put the store answers for the hash, and no processing of a payload with this hash can be told of a miss |
| `CachedResults.EventHasPayloadHash` | routing-system/servicer.py:169-171 | in every run the hash in a queued entry is that of its generation's payload |
| `Guarantees.RaisedGenerationCanHaveAnEvent` | routing-system/servicer.py:200-213 | a schedule in which a raised generation has an event |
| `Guarantees.AckedRowDescribesGeneration` | data-layer/main.py:67-75 | end to end: an acknowledged message has exactly one row; its byte count is that of the accepted chunks of its generation, its endpoint and addresses are those of the first of them, and its verdict, score, latency, model, hash and URIs are what the processing of those bytes was told |
| `Decimal.RoundTrip` | routing-system/queue_writer.py:54-61 | every integer printed by the writer is parsed back unchanged, by a parser that also takes signs, spaces and underscores |
| `Decimal.DigitsWeigh` | data-layer/pg_writer.py:43 | a digit in front of n digits counts as many times the n-th power of ten |
| `Decimal.NumeralIff` | data-layer/pg_writer.py:43 | a text without sign is a number iff it is made of digits and single underscores between them |
| `Decimal.SignedAndSpaced` | data-layer/pg_writer.py:43 | a number is read the same with white space around it and a plus sign, and negated with a minus sign |
| `Ledger.EntryRoundTrip` | data-layer/pg_writer.py:43-64 | a printed event parses to the row with the event's own values iff its timestamp is a date of the years 1 to 9999; the timestamp 0 becomes the database clock |
| `Ledger.KeyIsItsColumn` | data-layer/pg_writer.py:43-64 | changing the text under one key of a printed event changes the column of that name and no other |
| `Ledger.EmptyEntryIsDefaultRow` | data-layer/pg_writer.py:43-64 | a missing key gives nothing, or 0, 0.0, srnet, or the database clock |
| `Ledger.DatesAreFourDigitYears` | data-layer/pg_writer.py:47 | the timestamps that are dates are those of the days of the years 1 to 9999, counted in days with leap years |
| `Ledger.ApplyKeepsInv` | data-layer/main.py:61-79 | every step of the consumer group keeps the ledger invariant, whatever is refused or loses its reply |
| `Ledger.LedgerSafety` | data-layer/main.py:61-79 | in every run an id is in exactly one of undelivered, trimmed, pending and acknowledged, has at most one row, and has one if acknowledged |
| `Ledger.AbandonedForever` | data-layer/main.py:64-66 | a message that left the consumer's memory unacknowledged, or was trimmed unread, is never acknowledged, and its row, present or missing, stays as it is |
| `Ledger.CanBeAckedIff` | data-layer/main.py:61-79 | of all messages ever added, exactly these can be acknowledged in some continuation: those that are, and the well-formed ones in the consumer's memory or unread in the stream |
| `Ledger.CanGetRowIff` | data-layer/main.py:61-79 | and exactly these can have a row: those that have one, and the same ones |
| `Ledger.TrimmedNeverGetsRow` | routing-system/queue_writer.py:62-64 | a message trimmed by the cap before the group read it never gets a row |
| `Ledger.CapLosesMessage` | routing-system/queue_writer.py:62-64 | 10001 writes before the first read lose the oldest message in every continuation, without a crash or a failed insert |
| `Ledger.CrashLosesMessage` | data-layer/main.py:64-75 | a crash after delivery leaves a message without a row in every continuation |
| `DataLayer.Stream.WriteEvent` | routing-system/queue_writer.py:47-66 | writing is the ledger's add step; under the new id the data layer will parse the event's own values; trimming never passes the newest 10000 entries |
| `DataLayer.Table.InsertEvent` | data-layer/pg_writer.py:32-64 | a row is added iff the entry parses and the server performs the insert |
| `DataLayer.Consumer.HandleMessage` | data-layer/main.py:69-77 | one message, with other processes writing meanwhile, is an insert step and, only if that returned, an acknowledge step |
| `DataLayer.Consumer.ConsumeOnce` | data-layer/main.py:62-79 | one round over any replies, with writes before and between, is a run of the ledger's steps; each message it delivered has a row iff its entry parses and its own insert was not refused, is acknowledged iff moreover that insert returned and its acknowledgement was performed, and no other message is touched |
| `DataLayer.Consumer.ConsumeLoop` | data-layer/main.py:61-83 | the whole loop, while other processes keep writing to the stream, is a run of the ledger, so every property of runs holds of it; when every reply is that the command was done, every well-formed message it delivered is acknowledged and has its row |
| `RateLimiter.Limiter.IsAllowed` | routing-system/rate_limiter.py:35-59 | one pipeline: prune, count before adding, add, renew the expiry, refuse at or above the limit |
| `RateLimiter.Limiter.Serve` | routing-system/rate_limiter.py:35-59 | over any history with a non-decreasing clock, a call is allowed iff fewer than the limit of distinct milliseconds in (now - 1000, now] carry earlier calls |
| `RateLimiter.AllowedIffRecent` | routing-system/rate_limiter.py:40-56 | pruning and the 10 s expiry are unobservable: the store decides as the full history does |
| `RateLimiter.WindowBound` | routing-system/rate_limiter.py:22-28 | any window of 1000 ms has allowed calls in at most the limit of distinct milliseconds |
| `RateLimiter.CountsChunksIff` | routing-system/rate_limiter.py:21 | a call is judged by the number of earlier chunks, for every limit, iff no two of them in its window share a millisecond |
| `RateLimiter.HistoryCountsChunksIff` | routing-system/rate_limiter.py:54-56 | under a given limit a whole history is judged by its chunks iff no call has the limit of earlier chunks in its window in fewer milliseconds |
| `RateLimiter.LimitCountsChunksIff` | routing-system/rate_limiter.py:21 | every history is judged by its chunks iff the limit is at most 1 |
| `RateLimiter.BurstIsAllowed` | routing-system/rate_limiter.py:45-50 | any number of calls within one millisecond is allowed when the limit is at least 2 |
| `HashCache.Cache.LookupHash` | routing-system/cache.py:32-48 | a hit answers the stored fields, renews the expiry and adds one to the count; a miss changes nothing |
| `HashCache.Cache.StoreHash` | routing-system/cache.py:50-60 | the fields are overwritten, the count reset and the expiry set |
| `HashCache.Cache.Serve` | routing-system/cache.py:32-60 | over any history of both writers every lookup answers the leased history, and never ERROR |
| `HashCache.LookupIsLeased` | routing-system/cache.py:32-48 | a lookup answers the last stored result iff the last store or hit is within the lease its writer set |
| `HashCache.StoredIsAnswered` | routing-system/cache.py:32-60 | a stored hash is answered until the shorter of the two writers' lifetimes is over, whatever happens in between |
| `HashCache.HitCountIsHits` | routing-system/cache.py:43-44 | the hit count of a live entry is the number of hits since its last store |
| `HashCache.LookupIsLeasedIff` | routing-system/cache.py:18 | the agreement holds on all histories iff the configured lifetime is positive |
| `HashCache.NoErrorCached` | routing-system/servicer.py:261-269 | no entry ever holds ERROR, whoever wrote it |
| `HashCache.Cache.Handle` | soc-api/server.py:317-328 | each request of either writer: the router stores everything but ERROR, an ingest job stores STEGO or CLEAN for seven days, or nothing without a hash |
| `Carving.CarveIsLongest` | routing-system/pcap_builder.py:200-209 | the carve is a slice from a start marker to an end marker that contains every other such slice, and is empty iff no start marker precedes an end marker |
| `Carving.CarveIsIdempotent` | routing-system/pcap_builder.py:200-209 | carving a carved image changes nothing |
| `Carving.SniffImage` | routing-system/servicer.py:69-75 | the scan answers whether the payload starts with one of the six signatures |
| `Carving.SniffIff` | routing-system/servicer.py:58-75 | a payload is an image iff it starts with the JPEG marker bytes, with byte 137 and PNG, or with RIFF, BM, GIF87a or GIF89a |
| `Carving.AnalysedImageIsSniffed` | routing-system/servicer.py:201-213 | with the fallback carve, whatever is analysed passes the sniff, and nothing is analysed iff the payload is no image and has no marker pair; whatever was carved, a payload that passes the sniff is sent itself |
| `Pcap.BuildSession` | routing-system/pcap_builder.py:114-132 | the loop yields handshake, segments and FIN, and no capture when a sequence number exceeds 32 bits |
| `Pcap.HandshakeIsConsistent` | routing-system/pcap_builder.py:115-130 | the handshake starts from 1000 and 2000 with flags S, SA and A, its numbers and acknowledgements follow one another, and every later packet continues from them, PA for data and FA at the end |
| `Pcap.SegmentsAreContiguous` | routing-system/pcap_builder.py:123-130 | all segments but the last have 1300 bytes and the last has at least one; they are contiguous from 1001, and the FIN number follows the last byte |
| `Pcap.ReassemblyIsPayload` | routing-system/pcap_builder.py:114-131 | in whatever order and however often the packets arrive, a receiver ordering by sequence number has exactly the payload, and the FIN follows it |
| `Kernel.HIsEven` | test_images/BOWS2/matlab_imresize.py:17-38 | both kernels, stretched or not, are even |
| `Kernel.UnitMoments` | test_images/BOWS2/matlab_imresize.py:24-30 | at every real offset the integer translates of the kernel sum to one and reproduce linear signals |
| `Kernel.BicubicReproducesSquares` | test_images/BOWS2/matlab_imresize.py:24-30 | at every real offset the bicubic kernel reproduces quadratic signals too |
| `Kernel.PositiveWithinOnePixel` | test_images/BOWS2/matlab_imresize.py:32-38 | with both kernels exactly the inputs nearer than one pixel count positively, a pixel of the input when enlarging and of the output when reducing |
| `Kernel.WeightsSumToOne` | test_images/BOWS2/matlab_imresize.py:32-45 | before normalisation the weights sum to one and reproduce linear signals, for every scale of at least 1 and every scale 1/m |
| `Normaliser.WeightTotalPositive` | test_images/BOWS2/matlab_imresize.py:46 | the sum every row is divided by is positive, at every scale and for both kernels |
| `Imresize.WindowCovers` | test_images/BOWS2/matlab_imresize.py:41-44 | the taps from left to left + P - 1 miss no position where the kernel is non-zero |
| `Imresize.RawRowSumsToOne` | test_images/BOWS2/matlab_imresize.py:45-46 | the rows of the resizer sum to one before they are normalised, for the same scales |
| `Imresize.ReflectionIsSymmetric` | test_images/BOWS2/matlab_imresize.py:47-48 | the 2n-periodic border indices commute with reversing the line |
| `Imresize.ReflectIs` | test_images/BOWS2/matlab_imresize.py:47-48 | inside the line a border index is itself, the line is mirrored at both ends, and that repeats with period 2n |
| `Imresize.BorderValue` | test_images/BOWS2/matlab_imresize.py:32-52 | near a border an output value is the kernel-weighted sum over the line and its mirror image at either end |
| `Imresize.UnusedColumnsDoNotMatter` | test_images/BOWS2/matlab_imresize.py:49-51 | dropping the all-zero weight columns changes no output value |
| `Imresize.ResampledValue` | test_images/BOWS2/matlab_imresize.py:32-52 | an output value is the kernel-weighted sum over the mirrored line, over any range that covers the kernel |
| `Imresize.MirrorCommutes` | test_images/BOWS2/matlab_imresize.py:32-52 | when the scale maps input to output length exactly, resizing the reversed line gives the reversed result, at every size |
| `Imresize.LengthsMatchIff` | test_images/BOWS2/matlab_imresize.py:5-15 | the condition of mirroring holds for every size asked for, and for a scale asked for iff the scaled length is whole |
| `Imresize.SizeRoundsUp` | test_images/BOWS2/matlab_imresize.py:5-9 | a size derived from a scale is the scaled length rounded up |
| `Imresize.FlipCommutes` | test_images/BOWS2/matlab_imresize.py:122-140 | turning an image upside down commutes with resizing it along both axes, byte rounding included |
| `Imresize.MirroringCommutes` | test_images/BOWS2/matlab_imresize.py:122-140 | turning an image left to right does too |
| `Imresize.ConstantLineIsKept` | test_images/BOWS2/matlab_imresize.py:46 | a constant line resizes to the same constant at every scale |
| `Imresize.ScaleOneIsIdentity` | test_images/BOWS2/matlab_imresize.py:17-52 | at scale 1 every line is left as it is, with both kernels |
| `Imresize.LinearRampIsKept` | test_images/BOWS2/matlab_imresize.py:32-46 | away from the borders a ramp takes its value at i/s + (1 - 1/s)/2, the centre of output i in the input |
| `Imresize.ImresizeMex` | test_images/BOWS2/matlab_imresize.py:54-92 | slicing, multiplying and accumulating in nested loops fills the same array as taking, broadcasting and summing whole arrays, for both axes and both pixel types |
| `Imresize.VecIsPixelwise` | test_images/BOWS2/matlab_imresize.py:80-92 | the array form has the expected shape and gives every pixel its own weighted sum along the axis |
| `Imresize.FinishIsNearestByte` | test_images/BOWS2/matlab_imresize.py:74-78 | a byte pixel is the nearest of all bytes, the even one of two, and a byte stays as it is |
| `Imresize.OrderDoesNotMatter` | test_images/BOWS2/matlab_imresize.py:135-137 | without intermediate rounding the two orders of the axes give images of one shape and the same pixels |
| `Imresize.ContributionsFit` | test_images/BOWS2/matlab_imresize.py:47-52 | weight rows and index rows are rectangular, one of each per output position, and every index is inside the axis |
| `Imresize.TwoPasses` | test_images/BOWS2/matlab_imresize.py:135-137 | two passes over whole arrays are two passes pixel by pixel |
| `Masking.GatherIsMask` | CALPA-NET-master/libs/psm/detect_srnet.py:258-264 | gathering feature maps and kernel slices by a duplicate-free list, in any order, equals zeroing the channels outside it |
| `Masking.PruningIsMasking` | CALPA-NET-master/libs/psm/detect_srnet.py:258-264 | gathering a layer's kernel, bias and norm vectors and the next kernel's input channels gives the next layer what masking would |
| `Masking.ResidualStaysAligned` | CALPA-NET-master/libs/psm/detect_srnet.py:441-462 | with shortcut and main branch gathered by one list, the residual add pairs the same channels as before |
| `L1Order.PrefixIsHeaviest` | CALPA-NET-master/libs/psm/detect_srnet.py:435-443 | the kept prefix of any order by falling L1 norm has the largest total norm of all choices of as many channels |
| `L1Order.NormIsSum` | CALPA-NET-master/libs/psm/detect_srnet.py:433-437 | the norm of a channel is the sum of the absolute values of its weights |
| `L1Order.L1Trials` | CALPA-NET-master/libs/psm/detect_srnet.py:433-446 | every L1 trial of the SRNet detector keeps the heaviest choice of its size, and each rate that leaves a channel is tried |
| `L1Order.XunetL1Trials` | CALPA-NET-master/libs/psm/detect_xunet.py:267-276 | the XuNet detector tries all nineteen rates, on the heaviest list of each size, empty ones included |
| `Greedy.PickChannel` | CALPA-NET-master/libs/psm/detect_srnet.py:223-237 | the first candidate of least cost is picked, or none when no cost is below the initial minimum |
| `Greedy.RemoveNext` | CALPA-NET-master/libs/psm/detect_srnet.py:221-246 | the appended slices stay equal to the gather by the removal list, and S to the channels not removed |
| `Greedy.SrnetOrder` | CALPA-NET-master/libs/psm/detect_srnet.py:206-251 | the search ends with the reversed removal order of a greedy run over all channels, or stops where no cost is below the initial minimum |
| `Greedy.GreedyRunIsInjective` | CALPA-NET-master/libs/psm/detect_srnet.py:221-246 | no channel is removed twice, and a full run is a permutation of all channels |
| `Greedy.GreedyRunIsUnique` | CALPA-NET-master/libs/psm/detect_srnet.py:221-246 | kernel, input and cost determine the removal order |
| `Greedy.SrnetTrials` | CALPA-NET-master/libs/psm/detect_srnet.py:253-257 | exactly the non-empty prefixes are tried, and they shrink as the rate grows |
| `Greedy.XunetTrials` | CALPA-NET-master/libs/psm/detect_xunet.py:116-176 | the step counter runs trial k once, after ceil(kn/20) removals (k when n < 20), on the channels not yet removed |
| `Greedy.XunetKeptShrinks` | CALPA-NET-master/libs/psm/detect_xunet.py:149-157 | a later trial keeps only channels the earlier ones kept |
| `Greedy.DetectorsAgreeIff` | CALPA-NET-master/libs/psm/detect_xunet.py:125-176 | given one removal order, the two detectors run the same trials at all nineteen rates and keep the same channels in them iff the layer has no channel or at least 20 |
| `Greedy.LastTrialIsEmpty` | CALPA-NET-master/libs/psm/detect_xunet.py:126-176 | the step counter ends with one more trial, the twentieth or that of the layer's size, on the empty list |
| `Recorder.Recorder.Record` | CALPA-NET-master/libs/psm/detect_srnet.py:54-155 | the files before the first missing section or option are updated, the rest are not; other detection types change nothing; an entry holds the trial afterwards iff its accuracy was no better or the trial is within 0.02, 0.05, 0.1, 0.2 or 0.5 of the test accuracy, by file, and every other entry is as before |
| `Recorder.Recorder.WriteOne` | CALPA-NET-master/libs/psm/detect_xunet.py:37-49 | one file with one tolerance is rewritten iff the last accuracy is no better or the trial's is between test accuracy less and plus the tolerance; a missing section or option leaves it alone |
| `Recorder.Recorder.RecordAll` | CALPA-NET-master/libs/psm/detect_srnet.py:54-155 | over files with every section each of the five ends as its own fold of the trials |
| `Recorder.RateAndAccuracyTogether` | CALPA-NET-master/libs/psm/detect_srnet.py:74-81 | an entry's rate and accuracy come from one trial of that entry, and other trials do not touch it |
| `Recorder.RecordedIsLatestBest` | CALPA-NET-master/libs/psm/detect_srnet.py:76 | the recorded trial is the latest of the best since the last trial within the tolerance |
| `Recorder.LargerToleranceIsLater` | CALPA-NET-master/libs/psm/detect_srnet.py:73-113 | for any trials, a larger tolerance records the same or a later trial, whose accuracy is no higher |
| `Recorder.FilesAreOrdered` | CALPA-NET-master/libs/psm/detect_srnet.py:54-155 | started equal, the five files stay ordered in this way |
| `Recorder.FloorIsKept` | CALPA-NET-master/libs/psm/detect_srnet.py:76 | an entry at or above test accuracy less the tolerance never falls below it |
| `Recorder.AtLeastLastTolerated` | CALPA-NET-master/libs/psm/detect_srnet.py:76 | the recorded trial is no earlier than the last trial within the tolerance, and no less accurate |
| `Networks.BuildPrunedSrnet` | mitm-gateway/calpa_worker.py:111-203 | for every rate vector the loops build the training graph: the same variable names and shapes in the same order |
| `Networks.VariablesAreTable` | CALPA-NET-master/tasks/srnet_qf75_juniward_40/SRNet_qf75_juniward_04_pruned_Ta05.py:45-126 | for any image size and widths the variables are those of a table of 26 convolutions, by layer, kernel, input and output channels, each followed by its norm, and of the two-class head |
| `Networks.OutputSizes` | CALPA-NET-master/tasks/srnet_qf75_juniward_40/SRNet_qf75_juniward_04_pruned_Ta05.py:45-116 | the image keeps its size up to layer 7 and is halved, rounding up, by each of layers 8 to 11 |
| `Networks.MiddleUnrolls` | CALPA-NET-master/tasks/srnet_qf75_juniward_40/SRNet_qf75_juniward_04_pruned_Ta05.py:51-80 | the worker's loop over layers 3 to 7 equals the five layers written out |
| `Networks.DownUnrolls` | CALPA-NET-master/tasks/srnet_qf75_juniward_40/SRNet_qf75_juniward_04_pruned_Ta05.py:81-116 | the worker's loop over layers 8 to 11 equals the four layers written out |
| `Networks.AdditionsAlign` | CALPA-NET-master/tasks/srnet_qf75_juniward_40/SRNet_qf75_juniward_04_pruned_Ta05.py:51-116 | every residual addition has operands of one shape, for all rates and all image sizes, odd ones included |
| `Networks.ResidualAligns` | CALPA-NET-master/tasks/srnet_qf75_juniward_40/SRNet_qf75_juniward_04_pruned_Ta05.py:51-80 | the addition of a residual layer has operands of one shape iff its input has 16 channels |
| `Networks.UnprunedIffZeroRates` | CALPA-NET-master/models/SRNet.py:29-106 | the pruned graph is the unpruned one iff every rate is zero |
| `Networks.WidthIsKeptLength` | mitm-gateway/calpa_worker.py:158 | a rate of r twentieths leaves as many channels in the graph as the trial at that rate kept |
| `Networks.BuildFromTrials` | mitm-gateway/calpa_worker.py:111-203 | the graph built from recorded rates has exactly the channels their trials kept, in every layer |
| `Networks.SrnetLeavesChannelsIff` | mitm-gateway/calpa_worker.py:156-187 | every layer of the pruned SRNet keeps a channel iff each rate is at most 1 - 1/c for its c channels |
| `Networks.BlockIsConsistent` | CALPA-NET-master/tasks/xunet_qf75_juniward_40/XuNet2_qf75_juniward_04_pruned_Ta05.py:63-76 | a block stays consistent iff its declared input channels are the actual ones and each rate leaves a channel; it halves the image, rounding up |
| `Networks.XuNetBuildsIff` | CALPA-NET-master/tasks/xunet_qf75_juniward_40/XuNet2_qf75_juniward_04_pruned_Ta05.py:112-125 | no declared channel count and no addition ever fails: the graph can be built iff the image has at least 228 rows and columns and each rate is at most 1 - 1/c for its c channels |
| `Networks.NormIndices` | CALPA-NET-master/libs/psm/detect_xunet.py:82 | the norm numbers the detectors look up are those of the layers they mean |
| `Networks.ConvsAreTable` | CALPA-NET-master/tasks/xunet_qf75_juniward_40/XuNet2_qf75_juniward_04_pruned_Ta05.py:63-125 | the 25 convolutions of the graph with their declared input channels, their outputs at any rates and the numbers of their norms, block by block |
| `JpegCoef.PlacesAreABijection` | CALPA-NET-master/prep/stego_algorithms/UERD/jpegtbx_1.4/jpeg_read.c:381-393 | the moving-pointer index stays in bounds and is a bijection between block coefficients and matrix positions |
| `JpegCoef.PlaceIs` | CALPA-NET-master/prep/stego_algorithms/UERD/jpegtbx_1.4/jpeg_read.c:381-393 | entry (i, j) of block (y, x) lies in row 8y + i and column 8x + j of a matrix stored by columns |
| `JpegCoef.ReadComponent` | CALPA-NET-master/prep/stego_algorithms/UERD/jpegtbx_1.4/jpeg_read.c:366-394 | every matrix position holds the coefficient of the block it belongs to |
| `JpegCoef.WriteComponent` | CALPA-NET-master/prep/stego_algorithms/UERD/jpegtbx_1.4/jpeg_write.c:237-266 | every coefficient of every whole block is the truncated matrix entry; partial blocks are ignored |
| `JpegCoef.ReadThenWrite` | CALPA-NET-master/prep/stego_algorithms/UERD/jpegtbx_1.4/jpeg_write.c:237-266 | writing what was read restores every coefficient |
| `JpegCoef.ReadThenWriteAll` | CALPA-NET-master/prep/stego_algorithms/UERD/jpegtbx_1.4/jpeg_write.c:190-266 | writing back what was read of an image restores every coefficient of every component, and the identifiers, sampling factors and table numbers |
| `JpegCoef.InfoRoundTrip` | CALPA-NET-master/prep/stego_algorithms/UERD/jpegtbx_1.4/jpeg_read.c:257-271 | component fields come back; the table numbers of the object are those of the library plus one |
| `JpegCoef.WriteThenRead` | CALPA-NET-master/prep/stego_algorithms/UERD/jpegtbx_1.4/jpeg_read.c:366-394 | reading what was written restores every matrix of whole blocks with coefficient entries |
| `JpegCoef.ReadTables` | CALPA-NET-master/prep/stego_algorithms/UERD/jpegtbx_1.4/jpeg_read.c:307-322 | one transposed cell per slot up to the last in use, empty cells for the gaps |
| `JpegCoef.TablesAreTransposed` | CALPA-NET-master/prep/stego_algorithms/UERD/jpegtbx_1.4/jpeg_read.c:307-322 | entry 8i + j of a table and entry 8j + i of its cell are the same, when reading and when writing |
| `JpegCoef.WriteTables` | CALPA-NET-master/prep/stego_algorithms/UERD/jpegtbx_1.4/jpeg_write.c:268-292 | slots are filled in order until an entry outside 1..65535, an empty cell or a cell beyond the four slots stops it; the rest become unused |
| `JpegCoef.FirstBadCell` | CALPA-NET-master/prep/stego_algorithms/UERD/jpegtbx_1.4/jpeg_write.c:268-292 | the first cell that cannot be written decides how the loop ends: past the four slots, empty, or with an entry outside 1..65535 |
| `JpegCoef.TablesRoundTripIff` | CALPA-NET-master/prep/stego_algorithms/UERD/jpegtbx_1.4/jpeg_write.c:268-292 | tables read can be written back iff they fill the first slots and have no zero entry |

## Left out

- gRPC, Docker, tshark, scapy, MinIO, PostgreSQL and Redis themselves: their calls are outcomes chosen freely, with exceptions.
- Floating-point rounding: the resizer, costs, accuracies and scores are real numbers, rates exact twentieths, and printed scores are carried as text.
- TensorFlow numerics and training: a convolution is a sum over channels, an activation any function of a channel's own parameters, a network its variables and tensor shapes.
- Infinities and NaN: a cost, score or accuracy is always a number.
- SHA-256 and the upload: the URIs of an event are whatever the builder answered; where the cache is joined, the hash is any function of the payload, and that it tells payloads apart is an assumption of the one lemma that says so.
- `int()` on spaces and digits outside ASCII: `Decimal.Parse` refuses such text.
- Redis evicting a key between the three commands of a cache lookup: a lookup is one step.
- Cancellation of the background tasks at shutdown: the reaper never stops in the middle of a sweep.
- The key store, TLS keys, `stream_id` port parsing, the reader of the pruning configuration and the choice of default addresses.
- Ledger.EntryRoundTrip: the score crosses as the text the writer printed; that `float` gives back the number `str` printed is not modelled, nor is text that `float` refuses.
- The choice `argsort` makes among channels of equal L1 norm: any order by falling norm is allowed.
- The argument errors of `imresize` and its removal and restoration of the channel axis.
- Huffman tables and comments of JPEG objects.
- The SOC console except its cache writer, the dataset scripts, the frontend and the installers.
