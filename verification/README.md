# Event collector: a verified model

This project models the event pipeline in Dafny and proves what every interleaving of its threads keeps.
TCP sessions read length-prefixed frames, a bounded queue hands them to N workers, each worker parses,
validates and rate-limits, and a batching store flushes with retries and a dead-letter file. Verify it with
`dafny verify dfyconfig.toml`.

How it is organised:

- `Framing.dfy` — the wire format, the two-read session machine, and the `SessionReader` class.
- `Sessions.dfy` — connection accounting: accept chain, read and timer handlers, cleanup, all interleaved; when the
  idle timeout can and cannot happen.
- `Queue.dfy` — the bounded queue with its condition variable, as a transition system and as a class.
- `Limiter.dfy` — the INCR/EXPIRE limiter: the exact interval bound, exactness by window, non-interference, and
  its class.
- `Events.dfy`, `DeadLetter.dfy` — the field check, rows, and the dead-letter text.
- `Pipeline.dfy` — the whole pipeline as one transition system. A step is one locked section, one counter
  increment or one call to an outside service. Threads are N workers, the flush thread and the stopping thread.
- `PipelineCounts.dfy`, `PipelineBags.dfy`, `PipelineSafety.dfy`, `PipelineAsks.dfy` — what each step keeps; the
  last one ties every verdict to the limiter call that decided it, and has a sequential reference of the worker.
- `PipelineTheorems.dfy`, `PipelineHistory.dfy`, `PipelineScrape.dfy`, `PipelineLimits.dfy`,
  `PipelineShutdown.dfy`, `PipelineQueue.dfy` — theorems over all runs.
- `Storage.dfy`, `Processor.dfy` — the code that runs the store and the processor as classes, proved against
  specifications that are themselves runs of the pipeline (`HandleIsSolo`, `SoloIsRun`, `DrainIsRun`,
  `StopIsRun`).
- `Monitor.dfy` — the metrics page and its line reader.

Conventions of the model:

- Deserialisation is an arbitrary function from bytes to an optional event. Clocks, insert, rename, open, broker
  and Redis outcomes are inputs. Clock readings passed to the limiter do not decrease.
- Counters are 64-bit in the source; here they do not wrap.
- Every theorem about runs quantifies over all traces of enabled steps from the initial state, for every number
  of workers, queue capacity and choice of limiter, broker and store, and for any dead-letter file and any
  limiter counters that earlier runs left behind.
- Where the repository's own text and code differ, the model follows the code: a full queue drops the event
  (`src/collector/collector.cpp:88-91`) although `README.md:35` says that it blocks the producer, see
  `FullQueueRefuses`; re-arming the timer at `src/collector/collector.cpp:87` cancels the only pending wait, so the
  idle timeout of `README.md:32` happens exactly when the timer expires before the first complete frame, see
  `TimeoutOnlyBeforeFirstFrame` and, for the client that is never timed out, `SilentClientKeepsItsPlace`;
  the drain does not ask the limiter (`src/processor/processor.cpp:110-125`).

## Model

| member | source | states |
|---|---|---|
| `Framing.ShiftOrIsLittleEndian` | src/collector/collector.cpp:62-65 | the shift-and-or length is the base-256 value of the header, first byte lowest, for all four-byte headers |
| `Framing.PackedLengthDecodes` | bench_client.py:51 | decoding a packed header returns the length, for every 32-bit length |
| `Framing.DecodedLengthPacks` | src/collector/collector.cpp:62-65 | packing a decoded length returns the header bytes, so decoding loses nothing |
| `Framing.ReencodeGivesBackStream` | src/collector/collector.cpp:58-99 | parsed frames re-encoded plus the remainder are the stream; every frame has 1..102399 bytes; the remainder is an incomplete frame or announces 0 or at least 102400 bytes |
| `Framing.FramingRoundTrip` | src/collector/collector.cpp:58-99 | any bodies of 1..102399 bytes, framed and put in front of any stream, are parsed first and unchanged |
| `Framing.FramingIsUnique` | src/collector/collector.cpp:58-99 | a stream has only one cut into legal frames and a stuck remainder |
| `Framing.MachineParses` | src/collector/collector.cpp:58-99 | the header/body read machine fed byte by byte computes the whole-stream parse, including where it stands afterwards |
| `Framing.ChunkIndependence` | src/collector/collector.cpp:58-99 | any split of a stream delivers the same frames; the session is closed exactly when the remainder announces 0 or at least 102400 bytes |
| `Framing.SessionReader.constructor` | src/collector/collector.cpp:46-56 | a new session waits for a header and has delivered nothing |
| `Framing.SessionReader.OnHeader` | src/collector/collector.cpp:60-80 | the header handler starts a body read of the decoded length if that is 1..102399, and closes otherwise |
| `Framing.SessionReader.Receive` | src/collector/collector.cpp:58-99 | filling the two buffers in turn is the byte-wise machine on the segment |
| `BoundedQueue.StepKeepsFifo` | include/queue.h:16-47 | popped values then contents stay the accepted pushes in order, within capacity |
| `BoundedQueue.StepKeepsWakeups` | include/queue.h:16-47 | no push, pop, timeout, spurious wake-up or resumption breaks the wake-up invariant |
| `BoundedQueue.EveryRunIsFifoWithoutLostWakeups` | include/queue.h:16-47 | in every run, for any number of consumers: bounded FIFO, and while a consumer sleeps unnotified at least as many are notified as there are items |
| `BoundedQueue.SomeoneIsOnTheWay` | include/queue.h:39-47 | with an item queued and a consumer asleep, some notified consumer has still to run |
| `BoundedQueue.PushRefusedExactlyAtCapacity` | include/queue.h:16-30 | in every run a push is refused exactly at capacity and then changes nothing; otherwise its value goes last |
| `BoundedQueue.FullQueueRefuses` | include/queue.h:16-30 | the run that fills a queue of any capacity, after which a push is refused at once and changes nothing |
| `BoundedQueue.ThreadSafeQueue.constructor` | include/queue.h:13-14 | a new queue is empty and satisfies both invariants |
| `BoundedQueue.ThreadSafeQueue.TryPush` | include/queue.h:16-30 | performs a push step, notifies a sleeping consumer if there is one, succeeds exactly below capacity |
| `BoundedQueue.ThreadSafeQueue.TryPop` | include/queue.h:31-37 | takes the oldest value, or reports empty and changes nothing |
| `BoundedQueue.ThreadSafeQueue.PopForPass` | include/queue.h:39-47 | one pass of the timed wait with the mutex held: oldest value, or sleep, or give up |
| `BoundedQueue.ThreadSafeQueue.TryPopFor` | include/queue.h:39-47 | the whole timed wait when nobody disturbs it: oldest value, or sleep to the deadline and give up; either is a run of queue steps |
| `PipelineQueue.QueueStepsAreIntakeSteps` | include/queue.h:16-47 | each queue step is an offer, a pop or invisible to the pipeline, and a wait gives up only on an empty queue |
| `Limiter.IntervalBound` | src/processor/rate_limiter.cpp:20-38 | from any store, any time-ordered trace: an interval of at most m minutes admits a user at most (m+1)*limit times plus once per error |
| `Limiter.ExactIntervalBound` | src/processor/rate_limiter.cpp:20-38 | from any store, any time-ordered trace, any interval length and expiry lag: a user is admitted at most `Best` times plus once per error, where `Best` counts the windows that fit, less one call when they do not fit exactly |
| `Limiter.ExactBoundIsAttained` | src/processor/rate_limiter.cpp:20-38 | for every limit, lag and length a time-ordered, error-free trace reaches `Best`, so the bound cannot be improved |
| `Limiter.BestOfWindows` | src/processor/rate_limiter.cpp:20-38 | for m windows `Best` is at most (m+1)*limit, with equality exactly when keys expire on time, m is 0 or the limit is 0 |
| `Limiter.RefusedExactlyWhenWindowIsFull` | src/processor/rate_limiter.cpp:20-38 | from any store, with any errors, a call is refused exactly when it is answered and at least limit calls of that user were counted in its window before; a lost answer is counted, a call that never ran is not, and both are let through; the window is fixed by call times and the initial store |
| `Limiter.WindowsAreIntervals` | src/processor/rate_limiter.cpp:23-30 | a later call of a user shares a window with an earlier counted one exactly when it comes before that window ends |
| `Limiter.OtherUsersDoNotInterfere` | src/processor/rate_limiter.cpp:21-31 | deleting all other users' calls leaves a user's answers and slot unchanged, errors or not |
| `Limiter.RateLimiter.Eval` | src/processor/rate_limiter.cpp:23-30 | the script bumps a live key and sets the expiry, 60 seconds on, on the first hit only; other keys stay |
| `Limiter.RateLimiter.Allow` | src/processor/rate_limiter.cpp:20-38 | lets every call through on an error, else compares the user's counter with the limit; touches the key "rl:" + user only, and nothing if the script did not run |
| `Events.ValidExactlyWithinBounds` | src/processor/validation.cpp:4-14 | an event is valid exactly when its fields are within bounds and the clock lies between one day before and thirty days after its time stamp |
| `Events.RowsAreFaithful` | src/processor/storage.cpp:84-90 | each field of an event is in its own column; different events have different rows; a valid time stamp survives the unsigned cast, any other is taken modulo 2^64 |
| `DeadLetter.EarlySeparatorMeansUnclean` | src/processor/storage.cpp:138-140 | a separator found inside a record lies in it or overlaps the real one by exactly one byte |
| `DeadLetter.SplitRecoversExactlyCleanRecords` | src/processor/storage.cpp:138-140 | splitting at the first separator recovers the written records if and only if none contains the separator or ends in its first four bytes |
| `DeadLetter.CleanMeans` | src/processor/storage.cpp:138-140 | the condition in bytes: no newline, three dashes, newline inside the record, and no newline, three dashes at its end |
| `DeadLetter.TextSize` | src/processor/storage.cpp:138-140 | a batch's text has at most five bytes more per record than the longest record |
| `Sessions.StepKeepsInv` | src/collector/collector.cpp:10-119 | accept, read and timer steps keep cleanup bookkeeping and the connection bound |
| `Sessions.ConnectionsAreAccountedFor` | src/collector/collector.cpp:10-119 | in every interleaving 0 <= active <= 20000, active is sessions built minus decrements, none decrements twice, and a session whose read side is over has been cleaned up |
| `Sessions.AcceptsExactlyBelowLimit` | src/collector/collector.cpp:10-37 | in every run a new connection is let in exactly while fewer than 20000 are counted, and then is constructed and counted, or fails and the acceptor listens again |
| `Sessions.FailedSessionsAreReleased` | src/collector/collector.cpp:58-119 | in every run a failed read, an illegal header and a timeout lead to cleanup: at most two steps of the session itself, enabled one after another, give its place back exactly once |
| `Sessions.EverySessionCanEnd` | src/collector/collector.cpp:58-119 | from every reachable state every session can be brought to its end, with its place given back once |
| `Sessions.TimeoutOnlyBeforeFirstFrame` | src/collector/collector.cpp:85-111 | in every run the timer handler of a session cleans up, or is queued to, if and only if the timer expired before the session's first complete frame; otherwise that frame switches it off |
| `Sessions.SwitchedOffForGood` | src/collector/collector.cpp:87 | a switched-off timer neither expires nor runs in any continuation |
| `Sessions.SilentClientKeepsItsPlace` | src/collector/collector.cpp:85-111 | after one frame a silent client is never cleaned up and keeps its place, in every continuation in which none of its reads completes |
| `PipelineTheorems.StepKeepsInv` | src/processor/processor.cpp:105-217 | every step of every thread keeps the whole invariant |
| `PipelineTheorems.ReachableInv` | src/processor/processor.cpp:105-217 | the invariant holds in every reachable state |
| `PipelineTheorems.EveryFrameIsInOnePlace` | src/processor/processor.cpp:180-217 | the frames read are, as bags, exactly the arriving, dropped, queued, in hand, unparseable, invalid, rate-limited and forwarded ones |
| `PipelineTheorems.EveryForwardedRecordIsInOnePlace` | src/processor/storage.cpp:36-144 | the forwarded records are exactly the ones being saved, buffered, in flight, stored, dead-lettered or lost |
| `PipelineTheorems.CountersMatchBags` | include/metrics.h:5-18 | counters are bag sizes up to threads between two increments; the store-failure counter stays 0 |
| `PipelineTheorems.VerdictsAreRight` | src/processor/processor.cpp:187-207 | a frame is unparseable or invalid exactly when the parser and the field check at its moment say so; else it is forwarded if its thread does not ask the limiter, and otherwise forwarded or limited exactly as the limiter answered one call made for its user |
| `PipelineTheorems.EveryCallDecidesOneFrame` | src/processor/processor.cpp:203-207 | limiter calls and the frames they decided correspond one to one, up to refusals a worker has still to count |
| `PipelineAsks.LogFollowsReference` | src/processor/processor.cpp:185-213 | verdicts that follow the limiter calls one by one are those of a sequential reference that parses, validates and asks a limiter of its own |
| `PipelineTheorems.SingleWorkerSavesInOrder` | src/processor/processor.cpp:180-217 | with one worker, at rest, the saved records are, in order, what that reference keeps of the popped frames by parse, field check at that moment and limiter, starting from the counters found |
| `PipelineTheorems.BatchesAreSavesInLockOrder` | src/processor/storage.cpp:36-69 | batches in swap order then the buffer are all saves in lock order; buffer below 1000; batches of 1..1000, exactly 1000 when a save swaps; at most three attempts |
| `PipelineTheorems.BatchesHoldOnlyEvents` | src/processor/storage.cpp:82-99 | no reachable batch holds an unparseable record; its rows hold the fields of events, each in its own column, with their positive time stamps |
| `PipelineTheorems.DeadLetterFileIsBounded` | src/processor/storage.cpp:122-144 | while rotations succeed the file never exceeds 207261600 bytes |
| `PipelineTheorems.DeadLettersReadBack` | src/processor/storage.cpp:122-144 | if earlier runs left records in the file, splitting it gives back those it still holds and the ones written since, in order, exactly when each is free of the separator; the latter were dead-lettered |
| `PipelineTheorems.DrainLosesNothing` | src/processor/processor.cpp:105-125 | after the drain the queue is empty, received = parsed + parse_fail, parsed = valid + invalid, and every frame read was dropped or disposed of |
| `PipelineTheorems.DestructorResolvesEveryBatch` | src/processor/storage.cpp:30-56 | after the destructor the buffer is empty, every forwarded record is stored, dead-lettered or lost, and the counters say so |
| `PipelineHistory.ThreeInsertsBeforeDeadLetter` | src/processor/storage.cpp:108-119 | in every run a thread writes a batch to the dead-letter file only after exactly three inserts of it failed in a row, and inserts only after fewer |
| `PipelineHistory.BrokerMeetsEveryRecord` | src/processor/processor.cpp:162-178 | in every run each forwarded record is offered to the broker exactly once, up to threads about to do so, and the failure counter is the number of refusals, or 0 without a broker |
| `PipelineHistory.ReadFrameIsQueuedOrDropped` | src/collector/collector.cpp:85-93 | while sessions run, a frame of 1..102399 bytes can always be read, and its offer puts it last in the queue if there is room, else drops and counts it |
| `PipelineScrape.CountersNeverDecrease` | include/metrics.h:5-18 | between any two moments of a run no counter goes down |
| `PipelineScrape.TornScrapesStayBounded` | src/monitor/monitor.cpp:51-68 | counters loaded one by one: received <= parsed + parse_fail + N and parsed <= valid + invalid + N, with 1 for N if there are no workers |
| `PipelineScrape.LaterScrapesReportNoLess` | src/monitor/monitor.cpp:51-68 | a later, non-overlapping scrape sees and reports no smaller value of any counter |
| `PipelineLimits.WorkersRespectTheRateLimit` | src/processor/processor.cpp:203-209 | in every run, in any interval of at most m minutes, workers forward at most (m+1)*limit of a user's records plus one per limiter error; a record forwarded without asking would count in every interval, and until the drain all entries are workers' |
| `PipelineShutdown.EveryStepNearsTheEnd` | src/processor/processor.cpp:105-127 | after the call of stop no step increases the measure, and all but the flush thread's empty rounds decrease it |
| `PipelineShutdown.ShutdownNeverDeadlocks` | src/processor/processor.cpp:105-127 | in every run, from the call of stop until the destructor is over, some step that brings the end nearer is enabled |
| `PipelineShutdown.ShutdownRunsAreBounded` | src/processor/processor.cpp:105-127 | however a run goes on after the call of stop, all but a bounded number of its steps are empty flush rounds |
| `PipelineShutdown.StopCanAlwaysComplete` | src/processor/processor.cpp:105-127 | from every reachable state after the call of stop, shutdown can complete with queue and buffer empty |
| `PipelineShutdown.EveryRunCanShutDown` | src/processor/processor.cpp:105-127 | every run, whatever its stage, can be continued by settling the sessions, calling stop and completing shutdown, with queue and buffer empty |
| `BatchStore.BuildColumns` | src/processor/storage.cpp:74-106 | six columns of the batch's length; position i of each holds that field of event i, the time stamp modulo 2^64, or for an unparseable record empty fields, 0 and the raw bytes as payload |
| `BatchStore.AppendRecords` | src/processor/storage.cpp:138-140 | the record loop appends exactly the batch's text |
| `BatchStore.FlushResolvesBatch` | src/processor/storage.cpp:108-144 | a flush stores its whole batch if one of three inserts succeeds, else appends it to the file, emptied first if over 104857600 bytes and renamed, else loses it; it is counted where it went |
| `BatchStore.Storage.Insert` | src/processor/storage.cpp:110-116 | an insert appends the rows of the batch to the table, or nothing |
| `BatchStore.Storage.WriteDeadLetter` | src/processor/storage.cpp:122-144 | rotation check, then append and count, or lose the batch |
| `BatchStore.Storage.DoFlush` | src/processor/storage.cpp:71-120 | an empty batch is ignored; otherwise stored if one of three inserts succeeds, else dead-lettered |
| `BatchStore.Storage.Save` | src/processor/storage.cpp:36-46 | append; the save that makes 1000 records swaps the buffer out and flushes it |
| `BatchStore.Storage.FlushAndStop` | src/processor/storage.cpp:48-56 | flush whatever is buffered; the buffer is empty afterwards |
| `Processor.FlushIsSolo` | src/processor/storage.cpp:71-120 | the specified effect of a flush is a run of pipeline steps, for all outcomes |
| `Processor.HandleIsSolo` | src/processor/processor.cpp:185-213 | the specified effect of handling a frame is a run of pipeline steps, for all outcomes |
| `Processor.SoloIsRun` | src/processor/processor.cpp:180-217 | undisturbed steps of one thread are a run of the whole system |
| `Processor.WorkerRoundIsRun` | src/processor/processor.cpp:180-217 | a round of the worker loop is a run of the system back to its loop head |
| `Processor.DrainIsRun` | src/processor/processor.cpp:109-125 | the drain is a finite run of the stopping thread alone |
| `Processor.DrainIsWorkerWithoutLimiter` | src/processor/processor.cpp:110-125 | the drain handles a frame as a worker with no limiter does, except that the log names the stopping thread |
| `Processor.DrainAccountsForQueue` | src/processor/processor.cpp:109-125 | the drain empties the queue in order and keeps the counter equations |
| `Processor.StopIsRun` | src/processor/processor.cpp:109-127 | what stop is specified to do after joining the workers is a run of the stopping thread to the stage where it has returned |
| `Processor.FlushRoundIsRun` | src/processor/storage.cpp:58-69 | until the store is destroyed, a round of the flush thread is a run of its own steps that empties the buffer, resolves that batch and returns to the loop head |
| `Processor.Processor.constructor` | src/processor/processor.cpp:17-82 | a processor starts with an empty log over the given queue, limiter and store, which uses the same parser |
| `Processor.Processor.ProduceToKafka` | src/processor/processor.cpp:162-178 | no attempt without a broker, one if the first is accepted, else two; a failure is counted only if both are refused |
| `Processor.Processor.Deliver` | src/processor/processor.cpp:209-213 | broker call, then save if there is a store |
| `Processor.Processor.PassOn` | src/processor/processor.cpp:203-213 | limiter verdict, then delivery or the rate-limited counter |
| `Processor.Processor.WorkerBody` | src/processor/processor.cpp:185-215 | the early-exit body meets the common specification of handling a frame |
| `Processor.Processor.PopFor` | src/processor/processor.cpp:181-183 | the timed wait on the shared queue: oldest frame, or nothing and an empty queue |
| `Processor.Processor.Work` | src/processor/processor.cpp:180-217 | the worker loop waits with its deadline and handles queued frames in order, one per round |
| `Processor.Processor.DrainBody` | src/processor/processor.cpp:111-124 | the nested body meets the same specification, without the limiter |
| `Processor.Processor.PopFront` | include/queue.h:31-37 | takes the oldest frame off the shared queue |
| `Processor.Processor.DrainQueue` | src/processor/processor.cpp:109-125 | terminates with an empty queue and the effect of handling its frames in order |
| `Processor.Processor.Stop` | src/processor/processor.cpp:109-127 | drain, then flush; queue and buffer are empty afterwards |
| `Monitor.DecimalReadsBack` | src/monitor/monitor.cpp:44-49 | a printed counter is all digits and reads back as itself |
| `Monitor.DecimalIsShortest` | src/monitor/monitor.cpp:44-49 | a printed counter has exactly the digits it needs in base ten |
| `Monitor.OnlyItsOwnName` | src/monitor/monitor.cpp:54-65 | a value line starts with its own metric name and no other |
| `Monitor.PageRoundTrip` | src/monitor/monitor.cpp:51-68 | splitting the page into lines, skipping comments and matching by prefix recovers each of the twelve values |
| `Monitor.PageFormat` | src/monitor/monitor.cpp:40-68 | the page has 36 lines: for each metric its HELP line, its TYPE line and its value line, under one name |
| `Monitor.PageReportsEachCounter` | src/monitor/monitor.cpp:51-68 | on the page of a live scrape a reader asking for any of the twelve names gets the counter of that name, as it was when loaded |
| `Monitor.ScrapedPageIsNearlyConsistent` | tests/test_integration.py:80-89 | what a reader of the page learns from a scrape of a live run satisfies the torn-scrape bounds |

## Left out

- Sockets, signals, ports and environment variables (src/main.cpp): only "IO threads are joined before stop" is kept, as the guard of the call.
- Signal-driven shutdown: an accept error re-arms the accept and the metrics acceptor is never closed, so nothing is claimed before the call of `stop`.
- Handlers of sessions are steps on values, not methods of an object: updates in place, object lifetime and data races on the socket are not captured; the reading half is a class.
- Real-time behaviour: timers only race, they have no durations.
- Processor.Processor.Work: nobody else runs between two passes of its timed wait; waits that are disturbed are steps of the transition systems (`BoundedQueue.Step`, `QueueStepsAreIntakeSteps`).
- Delivery reports of the broker: the callback's parameter is not the pointer passed per message, so `kafkaOk` never changes here and `kafkaFail` counts refused calls only.
- The store's client: an insert is one atomic step; partial inserts and sharing of the client between threads are not modelled.
- Redis eviction and connections: one error outcome with the script run and one without.
- Names of rotated files: two rotations in the same second would overwrite each other; only the current file's size and text are modelled.
- Thrown socket errors, allocation failure, disk write errors after a successful open: assumed absent.
- The HTTP part of the metrics endpoint, logging, protobuf encoding, benchmarks, plots, scripts and containers.
