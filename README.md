# asynclog in Dafny

This project models the logic of asynclog, an asynchronous logger written in Go, and proves properties of it. It covers three parts:

- **The front door** (`log.go`, module `Logging`):
  - `New` settles the configuration.
  - `formatHeader` builds the record header: the flag gates, the level names and the short-file scan.
  - `Write` applies the level filter and routes each record to the queue or to the directly written file.
  - `WriteQueue` is the fail-fast bounded queue.
- **The buffered file sink** (`async_file.go`, module `FileSink`):
  - `check`, rotation by day or hour, opening and closing files, and the write buffer.
  - The worker's retry loop for one record: it adds a line break on every pass and forces a reopen at the tenth failure.
  - The drain of `SignQuite`.
- **The Kafka sink** (`async_kafka.go`, module `KafkaSink`):
  - `check` and the three lookup tables for compression, acknowledgement level and protocol version.
  - The event loop of `flushKafka` as a state machine over the events Record, Success and Error.
  - `SignQuite`.

The shared module `Base` holds Go bytes, `%d` text and the byte-by-byte append loop. The module `Queue` holds the record channel `chan []byte`, which is a class shared by reference between a logger and its sink.

The form of each part follows the source:

- Objects whose fields the Go code updates are classes. These are `Logging.Logger`, `FileSink.AsyncFile`, `KafkaSink.AsyncKafka` and `Queue.Channel`. The methods of the two sink classes are proved against pure functions of the state: `State() == Step(old(State()), …)`. The methods of `Logging.Logger` and `Queue.Channel` state their results and new fields directly.
- The properties are lemmas about those functions.
- Inputs the code reads from the outside world become parameters:
  - the clock: `Clock` and the time text;
  - the process id;
  - the caller's file and line;
  - whether an open, a flush or a file write succeeds;
  - the order in which the Kafka worker's `select` picks its cases: a sequence of `Event`s.
- The file system is a map from path to contents.
- File handles carry identities, so a handle closed by a rotation stays closed.
- The write buffer follows `bufio.Writer`: a flush that fails leaves the buffer failed ("sticky") until `NewBuffer` replaces it.

A configured queue size of 0 becomes 10000 for every queued type (`log.go:108-110`, `log.go:118-120`; `Logging.Configure`). The comment at `log.go:25` numbers the levels 0-Debug … 5-Panic. `levelMap` (`log.go:139-146`) numbers them the other way round, 0 PANIC … 5 DEBUG. The model uses `levelMap`'s numbering: the header reads its names, and the level wrappers (`log.go:197-263`) pass 0 for `Panic` up to 5 for `Debug`. The filter at `log.go:266` compares the numbers only (`Logging.ThresholdKeepsVerboseDropsSevere`).

## Model

| member | source | states |
|---|---|---|
| Base.DigitsRoundTrip | log.go:158 | reading the `%d` digits of a natural number back gives the number |
| Base.DecimalRoundTrip | log.go:191 | `%d` text of any int, sign included, reads back to the int and is never empty |
| Base.AppendEach | log.go:276-279 | the byte-by-byte append loop yields the data followed by the line break |
| Queue.Channel.Send | log.go:294 | a send with room places the record at the tail |
| Queue.Channel.Receive | async_file.go:80 | a receive takes the oldest record and leaves the rest in order |
| Logging.Configure | log.go:85-120 | type, level and flags pass through; a nonzero queue size is kept and 0 becomes 10000 exactly for the queued types 2, 3 and 4, so every queued logger has a nonzero size; a non-empty path is kept and an empty one becomes "log.log" for every type but Kafka (3), so only a Kafka logger can lack a path |
| Logging.ConfigureIdempotent | log.go:85-97 | settling the settled values again changes nothing |
| Logging.ChannelCapacityAsWritten | log.go:122 | as written, a queue size left at 0 builds a channel with no room |
| Logging.DefaultQueueSizeAdmitsUnbufferedSend | log.go:107-112 | with a default queue size the gate admits a record into a channel that, as written, has no room, so the send waits instead of failing fast |
| Logging.QueueCapacity | log.go:117-122 | the channel size the defaulting intends is positive for every queued type and equals any positive configured size |
| Logging.GateMatchesCapacity | log.go:289-294 | with that size, the gate `len < queueSize` admits exactly the records the channel has room for |
| Logging.LevelNames | log.go:139-146 | levels 0..5 have six distinct non-empty names; any other level has the empty name |
| Logging.LastSlash | log.go:183-188 | the scan finds the last '/' at an index of at least 1, and no '/' lies between it and the end |
| Logging.ShortFile | log.go:181-190 | the short name is what follows the last '/' at index 1 or later, or the whole name when there is none, and it contains no further '/' after its first byte |
| Logging.HeaderEmptyIffNoFlags | log.go:151-195 | the header is empty exactly when none of the five flags is set |
| Logging.ThresholdKeepsVerboseDropsSevere | log.go:266 | with levelMap numbering a threshold of ERROR keeps DEBUG records and drops PANIC records |
| Logging.Logger.New | log.go:85-132 | a failed open panics for types 1 and 4, and a negative size panics for queued types; otherwise the logger holds the settled values and an empty channel of the intended size |
| Logging.Logger.FormatHeader | log.go:151-195 | the step-by-step header equals time, "[pid] ", "[LEVEL] ", "file:line " in that order, each present exactly when its flag is set |
| Logging.Logger.WriteQueue | log.go:289-297 | fails with the queue unchanged exactly when the queue holds `queueSize` records or more, and otherwise appends the record |
| Logging.Logger.WriteFile | log.go:281 | the file takes the whole record, or nothing and an error |
| Logging.Logger.Write | log.go:265-286 | filtered records and types below 1 give (0, nil) with nothing changed; queued types enqueue header+message and report the message length; type 1 writes header+message+"\n" and reports its length |
| FileSink.CheckDefaults | async_file.go:62-70 | an empty path becomes "log.log" and a buffer size of 0 becomes 1 MiB; nothing else changes; checking twice is checking once |
| FileSink.Split | async_file.go:154-187 | only the stored key changes and afterwards it is the current key; a split is reported iff splitting is on and the key moved, and then the path extends the base path; otherwise the base path comes back and nothing changes |
| FileSink.SplitNormal | async_file.go:164-167 | without splitting, the base path comes back and nothing changes |
| FileSink.SplitOnKeyChange | async_file.go:169-186 | daily or hourly: a split is reported iff the stored key differs; it names base.suffix and stores the key, and otherwise the base path comes back unchanged |
| FileSink.SplitTwice | async_file.go:180-186 | a second call with the same clock reports no split |
| FileSink.HourlyStartAtMidnight | async_file.go:174-180 | the first hourly call at hour 0 reports no split and names the bare base path |
| FileSink.HourlyKeyRepeatsNextDay | async_file.go:176 | the same hour of a later day reports no split, so the record stays in the earlier file |
| FileSink.UnknownSplitTypeNeverSplits | async_file.go:164-180 | an unknown split type never splits while its key is 0 |
| FileSink.Close | async_file.go:205-211 | only the closed set changes; the current handle is closed afterwards; the error comes exactly when it was closed already |
| FileSink.Open | async_file.go:190-202 | a failed open changes nothing; a successful one closes the previous handle, installs a new one on the path, creates the file if missing, keeps buffer, key and settings, and changes no file's contents |
| FileSink.Flush | async_file.go:102 | a flush succeeds iff the buffer is healthy and either empty or bound to an open file that accepts the write; a successful one moves the buffered bytes to the end of that file and changes nothing else; a failed one writes nothing and leaves the buffer failed |
| FileSink.FlushSticky | async_file.go:86-88 | after a failed flush every flush fails |
| FileSink.Put | async_file.go:115 | only the buffer's bytes change: a healthy buffer keeps its bytes and takes the data after them, a failed one takes nothing |
| FileSink.Rotate | async_file.go:83-93 | the rotation step reports the split of `Split` and stores the new key; without a split nothing changes; with one, the buffered bytes reach the old file exactly when the flush succeeds, a successful open installs a new handle on the new path and closes the old one, a failed open keeps the old handle, and the fresh empty buffer is bound to whichever handle the sink then holds |
| FileSink.Iterate | async_file.go:81-119 | every pass adds one line break; a pass ends the loop or counts one attempt; it reopens exactly when a failing attempt finds the counter at 10, and a reopen renews the buffer |
| FileSink.PassWriteDecision | async_file.go:95-118 | the threshold flush happens only when the record and its line break do not fit; the loop ends iff the record fits or that flush succeeds, and the record then goes to the buffer; a pass that does not end adds nothing to any file and, without a reopen, leaves the buffer as it was but failed |
| FileSink.StickyBufferLosesRecord | async_file.go:115 | after a failed flush a record that fits ends the loop as if written, yet reaches neither the buffer nor any file, because the write error is ignored |
| FileSink.ReopenOpensBasePath | async_file.go:104-108 | the forced reopen in a pass without rotation opens the bare base path even when rotating |
| FileSink.RotationFlushesThenSwitches | async_file.go:83-93 | at a rotation the old buffer goes into the old file, the old handle is closed, the suffixed file is opened and the fresh buffer holds only the new record |
| FileSink.WriteRun | async_file.go:81-119 | the counter only grows; a loop that ends does so within the given passes, and one that does not has failed every pass; a record that needed k passes carries k line breaks |
| FileSink.RunReopens | async_file.go:104-109 | the forced reopen happens once exactly when the attempt counter passes 10, never twice |
| FileSink.RecordOutcome | async_file.go:80-119 | a record whose loop ended after f failures carries f+1 line breaks, and there is one reopen iff f ≥ 10 |
| FileSink.FreshPassEnds | async_file.go:101-118 | a pass that starts from an empty, healthy buffer always ends, because a flush of nothing succeeds |
| FileSink.EndsWithin | async_file.go:81-119 | from an attempt counter of at most 10, the loop ends within the passes left until the reopen plus one, with the counter at most 11 |
| FileSink.RecordEndsWithinElevenPasses | async_file.go:81-119 | with the unlock before the reopen, every record is buffered within 11 passes, after at most 10 failed flushes |
| FileSink.AsWrittenCrashesAtTenthFailure | async_file.go:100-110 | as written, the process ends exactly when a record reaches its tenth failed flush; otherwise the loop agrees with the corrected one, with no reopen and fewer than 10 failures |
| FileSink.WrittenRecordIsBuffered | async_file.go:115 | when the loop ends, the record sits at the end of the buffer unless the buffer had already failed |
| FileSink.DrainClosesAfterFlush | async_file.go:222-230 | the poll that finds the queue empty flushes and closes the file |
| FileSink.AsyncFile.NewAsyncFile | async_file.go:40-60 | check, open the path for the starting clock (panic on failure), then a fresh buffer |
| FileSink.AsyncFile.Check | async_file.go:62-70 | the fields become `check` of the old state |
| FileSink.AsyncFile.SplitFileFullPath | async_file.go:154-187 | the method computes `Split` of the old state |
| FileSink.AsyncFile.OpenFile | async_file.go:190-202 | the method computes `Open` of the old state |
| FileSink.AsyncFile.CloseFile | async_file.go:205-211 | the method computes `Close`; a second close of one handle reports an error |
| FileSink.AsyncFile.NewBuffer | async_file.go:138-142 | the buffer becomes empty, healthy and bound to the current file |
| FileSink.AsyncFile.BufferFlush | async_file.go:102 | the method computes bufio's `Flush` |
| FileSink.AsyncFile.BufferWrite | async_file.go:115 | the method computes bufio's `Write`, which a failed buffer refuses |
| FileSink.AsyncFile.FlushBuffer | async_file.go:145-151 | the method flushes only when something is buffered |
| FileSink.AsyncFile.RotateFile | async_file.go:83-93 | the rotation step of a pass computes `Rotate` on the sink and returns the path to use |
| FileSink.AsyncFile.WritePass | async_file.go:81-118 | one pass of the loop body computes `Iterate` on the sink |
| FileSink.AsyncFile.WriteRecord | async_file.go:81-119 | the retry loop ends in the state, data and counter of `WriteRun`, to which the lemmas above apply |
| FileSink.AsyncFile.ServeNext | async_file.go:78-80 | with a record waiting, the worker dequeues the oldest one and runs the retry loop on it; with none, nothing changes |
| FileSink.AsyncFile.SignQuite | async_file.go:214-237 | completion is reported iff a poll finds the queue empty; that poll flushes then closes, and every earlier or unanswered poll only flushes |
| KafkaSink.KafkaCompression | async_kafka.go:144-158 | the codes 0..4 name the five codecs and are read back exactly; any other code means no compression |
| KafkaSink.CompressionRoundTrip | async_kafka.go:144-158 | each codec comes back from its code |
| KafkaSink.KafkaRequiredAcks | async_kafka.go:161-173 | 0, 1 and -1 name the three levels and are read back exactly; any value other than 0 and 1 waits for all replicas |
| KafkaSink.RequiredAcksRoundTrip | async_kafka.go:161-173 | each level comes back from its value |
| KafkaSink.VersionTextInjective | async_kafka.go:178-203 | different versions have different dotted texts, so the version table has one entry per text |
| KafkaSink.Lookup | async_kafka.go:206-210 | the newest version comes back iff no version of the list has the text, and otherwise a listed version with that text |
| KafkaSink.KafkaVersionOf | async_kafka.go:176-211 | an unlisted text gives the newest version, and a found version is listed and has the text it was looked up by |
| KafkaSink.LookupFinds | async_kafka.go:206-208 | a version of the list is found from its text |
| KafkaSink.VersionRoundTrip | async_kafka.go:176-211 | every listed version is found from its text |
| KafkaSink.CheckConfig | async_kafka.go:53-65 | empty brokers are the error first, an empty topic next, and with both present the result is the limit to use: a configured nonzero one, or 1048576 (1 MiB) in place of 0 |
| KafkaSink.CheckConfigIdempotent | async_kafka.go:53-65 | checking the checked settings again changes nothing |
| KafkaSink.Step | async_kafka.go:94-129 | one turn never touches the quit flag or the capacity, a stopped worker takes no event, and the loop ends only on a turn with the quit flag set and an empty queue |
| KafkaSink.Run | async_kafka.go:90-135 | the quit flag and the capacity stay as they were, and an ended or blocked worker takes no more events |
| KafkaSink.StepConserves | async_kafka.go:94-129 | no event creates or loses a record: waiting, in flight, delivered, dropped and stuck records form the same multiset |
| KafkaSink.RunConserves | async_kafka.go:90-135 | the whole loop conserves the records |
| KafkaSink.RunKeeps | async_kafka.go:90-135 | the loop only extends the delivered, dropped and published logs |
| KafkaSink.RecordPublishesHead | async_kafka.go:96-102 | a record event publishes the oldest queued record and never ends the loop |
| KafkaSink.SuccessEndsIff | async_kafka.go:104-110 | an acknowledgement ends the loop iff quitting with an empty queue |
| KafkaSink.ErrorRequeues | async_kafka.go:124-127 | a failure while not quitting goes back to the tail of the queue, or blocks the only reader when the queue is full |
| KafkaSink.ErrorWhileQuitting | async_kafka.go:116-123 | a failure while quitting is dropped, not re-queued, and ends the loop iff the queue is empty |
| KafkaSink.EndedRunHasEmptyQueue | async_kafka.go:104-122 | a run that ends leaves the queue empty |
| KafkaSink.NoDropWithoutQuit | async_kafka.go:112-127 | without the quit flag nothing is dropped and the loop never ends |
| KafkaSink.PublishedInQueueOrder | async_kafka.go:96-102 | without failures records reach the producer in queue order |
| KafkaSink.IdleQuitNeverEnds | async_kafka.go:104-122 | quitting with nothing queued and nothing in flight never ends the loop, so `SignQuite` waits for ever |
| KafkaSink.EndsWithMessagesInFlight | async_kafka.go:104-110 | the loop can end while a published message is still unanswered |
| KafkaSink.QuitAsWrittenNeverAnswers | async_kafka.go:28-50 | as written the quit channel is never made, so `SignQuite` gets no answer whatever the worker does |
| KafkaSink.QuitHandshakeAnswersWhenDrained | async_kafka.go:131-141 | with the channel made, `SignQuite` answers exactly when the worker has ended, and then no record waits in the queue |
| KafkaSink.AsyncKafka.Config | async_kafka.go:70-78 | each configured code is read the way its lookup reads it: codes 0..4 give the codecs and others no compression, 0, 1 and -1 give the levels and others wait for all; the version is `KafkaVersionOf`; the size limit is kept |
| KafkaSink.AsyncKafka.NewAsyncKafka | async_kafka.go:32-50 | the checked sink holds the given settings, the defaulted limit, an idle worker and no quit channel, or the panic of `check` |
| KafkaSink.AsyncKafka.Check | async_kafka.go:53-65 | the method computes `CheckConfig` and changes nothing else |
| KafkaSink.AsyncKafka.HandleEvent | async_kafka.go:94-129 | one turn of the loop computes `Step` on the sink and its queue |
| KafkaSink.AsyncKafka.FlushKafka | async_kafka.go:90-135 | the loop over the events computes `Run`, stopping when the worker ends |
| KafkaSink.AsyncKafka.SignQuite | async_kafka.go:138-141 | the quit flag is set, the worker runs, nothing else changes, and the answer is `QuitAnswer` of the channel and the worker |

## Left out

- Goroutines, `select`, the mutex and the tickers (`TickerFlushBuffer`, the 1 s and 100 ms periods, the `go` launches) are left out. Each worker step is modelled sequentially, and the order of the steps is an input. The one place where the mutex changes the outcome, the unlock after the forced reopen, is the `async_file.go:110` finding.
- A channel send that would block is not modelled as waiting. `Queue.Channel.Send` requires room. `WriteQueue` never sends without room because the channel has the intended size. The Kafka worker records a re-queue into a full queue as `blocked`.
- `time.Now`, `Format` and `%v` of `t.Local()` are parameters: the time text and `Clock`. `FileSink.Split` reads one `Clock` per call, while `SplitFileFullPath` calls `time.Now()` once for the key (`async_file.go:171`, `async_file.go:176`) and again for the file name (`async_file.go:181`); at a day or hour boundary the two can come from different instants, which the model does not capture.
- `syscall.Getpid` and `runtime.Caller` are parameters: `pid` and `caller`.
- `os.OpenFile` and its flags are reduced to a success flag. The same goes for closing, flushing and writing. A close error other than closing a handle twice is not modelled.
- `Logging.Logger.WriteFile`: the operating system takes a record whole or not at all. Short writes are not modelled.
- `FileSink.AsyncFile.BufferWrite` keeps records that are larger than the buffer in the buffer. bufio writes those straight to the file; that direct write is not modelled.
- The `fmt.Printf` diagnostics in `client`, `flushKafka` and both `SignQuite`s produce no output in the model.
- The sarama client is not modelled: `client`, `NewAsyncProducer`, its panic, its channels, the partitioner, the metadata refresh and `AsyncClose`. Publishing and the producer's answers are events. The worker's send on `queueQuit` is modelled by `ended` and `QuitAnswer`.
- The level wrappers `Panic`, `Fatal`, `Error`, `Warn`, `Info` and `Debug`, and their `f` forms, are left out. They format their arguments with `fmt` and call `Write` with the levels 0 to 5. `Panic` and `Fatal` also call `AsyncQuite` and then `panic` or `os.Exit`.
- `AsyncQuite` and `Close` are left out. They dispatch through the global wiring, and that wiring does not compile as written:
  - `log.go:113` and `log.go:124-125` pass fewer arguments than `newAsyncFile` and `newAsyncKafka` take;
  - the global `isQuit` never reaches the Kafka sink's field.
  The sinks are modelled with their own queue parameter.
- Every logger is given a queue of its own, including type 1 and types 5 and above. In Go `logQueue` is one package-level channel, made only by a `New` of type 2, 3 or 4; a logger of type 5 or above uses whatever an earlier `New` made, or the nil channel. Its `queueSize` keeps the configured value. With `queueSize <= 0` the gate at `log.go:290-291` fails before any send, in Go as in the model. With `queueSize > 0` and a nil channel the Go send blocks for ever, while the model's channel of that size takes the record. `Logging.Logger.Write` sends only for types above 1.
- `Logging.Logger.New` builds the channel with the defaulted size `QueueCapacity`, the corrected half of the `log.go:112` finding. As written, a queued logger configured with `QueueSize` 0 gets an unbuffered channel.
- `FileSink.AsyncFile.SignQuite` polls a finite number of times. The worker does not drain the queue during the call. Where the Go loop would never end, the method returns false after the last poll.
- `KafkaSink.AsyncKafka.SignQuite` answers `QuitAnswer`, which is `None` for every input as written, because nothing makes the sink's `queueQuit` (see Findings). The worker then also blocks at its send (`async_kafka.go:133`), so the deferred `AsyncClose` never runs; the producer is not modelled, so neither is that.
- `FileSink.AsyncFile.WriteRecord` makes at most one pass per element of `env` and then reports the loop not done. Once `env` has 11 or more elements this cuts nothing: the forced reopen installs an empty, healthy buffer, whose pass always ends, so the loop ends within 11 passes (`FileSink.RecordEndsWithinElevenPasses`).
- `FileSink.RecordOutcome`, `FileSink.Iterate` and `FileSink.WriteRun` describe the retry loop with the unlock before the reopen, the corrected half of the `async_file.go:110` finding. As written, the pass that reopens at the tenth failure ends the process, so for 10 or more failures they describe runs the program does not reach (`FileSink.AsWrittenCrashesAtTenthFailure`).
- `logs_test.go` is not part of this model. It has no assertions.

## Findings

| source | as written | input that shows it | evidently intended | confidence | as-written member | corrected member |
|---|---|---|---|---|---|---|
| log.go:112 | the channel is made with the configured `s.QueueSize`, while the gate of `WriteQueue` compares against the defaulted `logger.queueSize` (the same happens at log.go:122) | async file type 2 with `QueueSize` 0: the gate allows 10000 records, but the channel is unbuffered, so `WriteQueue` blocks instead of failing fast (`Logging.DefaultQueueSizeAdmitsUnbufferedSend`) | make the channel with the defaulted size, so the gate and the capacity agree (`Logging.GateMatchesCapacity`) | not executed | Logging.ChannelCapacityAsWritten | Logging.QueueCapacity |
| async_kafka.go:140 | `SignQuite` receives from the sink's `queueQuit`, which `newAsyncKafka` (async_kafka.go:32-50) never makes; `log.go:123` makes the package-level `queueQuit`, a different variable | any Kafka logger: the field is nil, so the receive at async_kafka.go:140 and the worker's send at async_kafka.go:133 both block for ever (`KafkaSink.QuitAsWrittenNeverAnswers`) | make the sink's channel in `newAsyncKafka`, so the worker's `true` reaches `SignQuite` once it has drained the queue (`KafkaSink.QuitHandshakeAnswersWhenDrained`) | not executed | KafkaSink.QuitAsWrittenNeverAnswers | KafkaSink.QuitHandshakeAnswersWhenDrained |
| async_file.go:110 | the pass locks `c.buffer` (async_file.go:100), the forced reopen replaces it with a new `BufferLog` (async_file.go:107), and the unlock at async_file.go:110 is then on the new buffer's mutex, which was never locked; Go ends the process on that unlock | any record whose flush fails ten times, such as a file that refuses every write: the tenth failed pass ends the process and the record is never written (`FileSink.AsWrittenCrashesAtTenthFailure`) | unlock the old buffer before `OpenFile` and `NewBuffer`, so the next pass runs on the fresh buffer and the record is written within 11 passes (`FileSink.RecordEndsWithinElevenPasses`) | not executed | FileSink.AsWrittenCrashesAtTenthFailure | FileSink.RecordEndsWithinElevenPasses |
