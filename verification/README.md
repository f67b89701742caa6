# MuTelemetry, verified

MuTelemetry encodes telemetry as ULog messages, writes them to a file and streams them over a lossy network to a client
that parses them. This Dafny project models that pipeline from end to end and proves what it is for: that definitions
are accepted once and in order, that a parser given the queue's output hands on whatever concurrent callers stored with
its time and exactly its values, that the client's data handler gets exactly the samples that arrive, and which samples
can arrive, that the client's validity check fails only where the messages are out of order, and that the file holds
what was enqueued, so that every stored sample can be read back from it. Where the code does not meet a promise in all
cases, the exact condition is proved; the main ones are listed under "What the code does that a reader may not expect".

## What is modelled

* **The sync protocol** (`Streamer`, `StreamerInvariants`, `StreamerTheorems`, `SyncTiming`, `SyncEnds`, `StopStart`,
  `Discarding`, `StreamerClass`). A transition system whose steps are the single atomic loads, compare-exchanges, queue
  operations and packets of `sync_loop`, `discard_loop`, `main_loop`, the two protocol handlers and the client. Packets
  and acks in flight are kept for ever in sets, so any of them may be lost, repeated or reordered, and none is forged.
  `StreamerClass` has the functions as they are written, with their loops and switches; between any two of their
  operations the other threads take arbitrary steps, and each function is shown to take steps of the transition system
  only. `SyncEnds` proves when `sync_loop` ends, and constructs the runs in which it does; `SyncTiming` counts its
  waits, `StopStart` stops the stream and starts it again, and `Discarding` says what is dropped before it runs.
* **The API and its callers** (`Memory`, `Encoder`, `WireFormat`, `TelemetryClass`, `Callers`, `Allocation`,
  `Instances`, `Serial`, `TelemetryRun`). Byte-exact message builders: structures filled in place by `memcpy` and
  `snprintf` with a running size, the two id tables and the two queues. `Callers` is a transition system of any number
  of concurrent calls: storing a sample takes its message id, its multi id and its place in the queue in three separate
  steps, and the steps of different calls interleave at will. `Serial` is the case of one caller at a time, and
  `TelemetryRun` shows that the class, called in sequence, does the same. `WireFormat` states every message in the bytes
  of the file format.
* **The parser** (`Text`, `FormatText`, `Layout`, `LayoutWalks`, `FieldTypes`, `ColumnPaths`, `Parser`, `Verdicts`,
  `ParserClass`, `Tails`). Each parsing function is a function on the parser's state that returns the new state or the
  way the C++ code fails: reading out of bounds, an exception, undefined behaviour or a recursion over formats that
  never ends. `ParserClass` and `LayoutWalks` are the class with its fields and loops, proved to compute exactly that.
  `Verdicts` says by their bytes which buffers each state accepts, `FieldTypes` what the words of the types stand for,
  `ColumnPaths` what columns are called.
* **What the parser makes of the API's messages** (`RoundTrips`, `Events`, `SharedSeries`, `Streams`, `Samples`,
  `EndToEnd`, `ApiStream`). From single messages to whole streams, given to `parse` or to `check_ulog_valid`
  (`checked`), which parses data twice.
* **Exactly when** (`TypeCollisions`, `Clashes`, `Exactness`, `Races`, `ZeroSamples`, `Mixups`). All runs with given
  registrations are accepted, or delivered under the right columns, if and only if no type is named like an instance of
  another with a different number of columns, or with different columns; the runs that fail otherwise are constructed.
* **The whole pipeline** (`ClientClass`, `Pipeline`, `Payloads`, `Arrivals`). Callers, streamer, network and client
  together: what the client makes of the packets that arrive, and which packets can.
* **The repository's own test program** (`Serializers`, `TestTypes`, `TestMessages`, `TestColumns`, `TestLeaves`,
  `TestProgram`, `TestSizes`, `TestArrivals`, `TestThreads`), with everything it registers, its types, its serializers
  and its threads: what it sends, what a parser hands on of the queue's output, and what of it can reach the client.
* **The logger** (`Logger`, `LoggerRun`, `LogFile`, `PostedIo`, `PostedOrder`). Eight buffers, a stack of free ones, a
  current one, a queue and a file, with messages arriving at any look at the queue and `try_lock` and the weak
  compare-exchange failing at will: single operations, whole runs from construction to release, and what the file then
  holds of the API's messages. And the build in which buffers are written by posted jobs that overtake one another.

Three kinds of inputs stand for what is outside the code: schedules of the other threads' steps, moments at which
messages arrive, and timestamps. Leaves of samples are their little-endian bits; the conversion to `double` is not
interpreted. An assertion of the source that fails ends the operation (`None`, or a false result with nothing sent).
In the parser and on the streamer's states assertions are taken as compiled out: the parser goes INVALID, and a failed
assertion on a state is recorded and the run goes on, since a lost compare-exchange there is a race that does happen.
`to_io` fills the two queues one after the other, so that with concurrent callers their orders may differ; the theorems
about callers are about either queue by itself.

## What the code does that a reader may not expect

* One message of more than 249 bytes before the first sample blocks the streamer for good: `send_ulog_ack` refuses it
  each time, `sync_loop` never ends and no data leaves (`SyncEnds.OversizedBlocks`). `sync_loop` can end if and only if
  there is no such message (`SyncEnds.CanEndIff`), although the API takes formats of up to 1500 bytes.
* A sample whose packet has more than 249 bytes, that is `11 + |name| + |data| > 249`, is accepted by the API and
  written to the file, but `send_ulog` refuses it and `main_loop` skips it (`Arrivals.SampleArrivesIff`). In the
  repository's own test program no sample of DataType4 ever reaches the client: its packets have 496 bytes
  (`TestArrivals.TestSampleArrivesIff`).
* A format registered with a non-empty field list is sent with its last character replaced by NUL, so the last
  field's name ends in NUL at the parser (`FormatRoundTrip.RegisteredFormatParses`).
* All instances of a type share the series of the instance whose sample is enqueued first: `n` as long as only instance
  0 is stored, then `n.XX` with the first enqueued instance's multi id for all of them (`Instances.DeliveredNames`).
  With one caller at a time that is `n.00` (`Serial.SerialNames`); with concurrent callers the ids are taken before the
  packet is enqueued, and any instance can be first (`Races.AnyInstanceFirst`).
* A type named like an instance of another, such as `m.00`, can share that type's series. Streams are then rejected if
  the two have different numbers of columns, and delivered under the other's columns if they differ otherwise. For one
  caller at a time only `m.00` matters (`Exactness.SerialAcceptedIff`, `Mixups.SerialDeliveredIff`), for concurrent
  callers `m.00` to `m.255` (`Races.AlwaysAcceptedIff`, `Mixups.AlwaysDeliveredIff`).
* The client's check hands every sample to the data handler twice (`SeriesShape.CheckValidParsesOnce`,
  `Pipeline.ClientReadsSamples`).
* A logged message that reaches the client before any sample does makes its check fail, and it stays failed
  (`Pipeline.ClientAcceptsIff`).
* An info key with a space is kept under its first word (`RoundTrips.InfoRoundTrip`).
* More than 65536 definitions are not all delivered, because sequence numbers have 16 bits
  (`StreamerTheorems.AllDeliveredIff`).
* A stream that opens with a data packet makes the exit of `sync_loop` race with the start command: its exchange can be
  lost, and `main_loop` can then find the state CONNECTED (`StreamerTheorems.StatesAsExpectedIff`,
  `StreamerTheorems.ExchangesSucceedIff`).
* An array size above 2147483599 overflows `int` while its digits are added up (`FormatRoundTrip.SizeParses`).
* With posted I/O the file may hold the messages in another order (`PostedIo.Overtaken`): the order is safe exactly as
  long as no buffer is exchanged while a job is unfinished (`PostedOrder.SwapKeepsOrderIff`).

## Model

| member | source | states |
|---|---|---|
| StreamerTheorems.AcceptedInOrder | src/mutelemetry_network.cc:240-280 | in every reachable state, over any network, the definitions the client accepted are `definitions_[..n]`, in order and each once, with `seq_ <= n <= seq_ + 1` up to 65536 |
| StreamerTheorems.AllDeliveredIff | src/mutelemetry_network.cc:216-240 | when `sync_loop` has ended, the client holds every message before the first data packet if and only if there are at most 65536 |
| StreamerTheorems.StreamConservation | src/mutelemetry_network.cc:206-236 | in every interleaving the messages enqueued are the definitions, then those taken by the readers, then the queue; the definitions are the messages before the first data packet; everything taken is counted as sent or skipped |
| StreamerTheorems.DataAfterDefinitions | src/mutelemetry_network.cc:309-330 | no LOGGING_DATA packet exists before the client holds every definition it can hold |
| StreamerTheorems.SyncBudget | src/mutelemetry_network.cc:240-307 | with N definitions that fit the payload and R entries into RESEND_DEF, exactly N + R packets are sent, in at most 21 (N + R) + N rounds outside INIT |
| StreamerTheorems.SyncProgress | src/mutelemetry_network.cc:210-312 | until `sync_loop` has ended each of its steps behind the first loop is counted, also those of a loop that makes no headway (when it ends is the next three rows); in the first loop a step that changes nothing waits for a message |
| SyncEnds.CanEndIff | src/mutelemetry_network.cc:183-312 | from every reachable state `sync_loop` can still end, in some continuation with a client that answers, if and only if every message enqueued before the first data packet fits the 249 bytes of its packet |
| SyncEnds.OversizedBlocks | src/mutelemetry_network.cc:183-204 | a definition that does not fit is never accepted, nor is any behind it; in no run does `sync_loop` end, the streamer run or data leave |
| SyncEnds.EndsWithin | src/mutelemetry_network.cc:240-312 | with N definitions that fit, R entries into RESEND_DEF and I rounds waiting for a client, `sync_loop` has ended once it made more than 3 (21 (N + R) + N + I) + 3 steps behind its first loop |
| StreamerTheorems.StatesAsExpectedIff | src/mutelemetry_network.cc:324-330 | the assertions on the streamer's state hold in every interleaving if and only if the stream does not open with a data packet |
| StreamerTheorems.StatesFound | src/mutelemetry_network.cc:247-249 | with a definition to send: `sync_loop` finds CONNECTED only with a target and never RUNNING before its end, and `main_loop` finds RUNNING or STOPPED |
| StreamerTheorems.RunConserves | src/mutelemetry_network.cc:314-362 | the conservation of messages and counters, and the protocol's invariant, hold after every run |
| StreamerInvariants.Reaches | src/mutelemetry_network.cc:206-312 | the protocol's invariant (control, delivery, counting) holds in every reachable state |
| StreamerInvariants.ClientKeepsInv | tests/mutelemetry_client.cc:87-112 | an arriving packet is accepted only if it carries the next definition; duplicates and stragglers are acknowledged and dropped |
| StreamerInvariants.AckKeepsSender | src/mutelemetry_network.cc:118-137 | the ack handler's exchange keeps the sender's control and its counts, whether or not the timeout was faster |
| StreamerInvariants.RoundKeepsRounds | src/mutelemetry_network.cc:287-301 | every round keeps the bound on rounds: 20 waits of 50 ms to a packet |
| SyncTiming.TimeoutAtTwenty | src/mutelemetry_network.cc:287-301 | the waits of 50 ms since the last packet are counted one by one: in every run the twentieth, and no earlier one, leads to the exchange to RESEND_DEF, so a resend by timeout lies exactly twenty waits behind the packet it repeats |
| SyncTiming.RunTimed | src/mutelemetry_network.cc:287-301 | in every run `sync_timeout_` is 50 times the number of waits since the last packet, and never more than 1000 |
| SyncTiming.CountersCount | src/mutelemetry_network.cc:240-307 | in every run the counters of the budget rows are counts of what happened: packets sent, entries into RESEND_DEF, rounds that found INIT and rounds that did not |
| StreamerClass.MutelemetryStreamer.SyncLoop | src/mutelemetry_network.cc:206-312 | written as in the source and run against arbitrary other threads: when it ends the streamer runs, every definition fitted its packet, N + R packets were sent, and the client holds all definitions if there are at most 65536 |
| StreamerClass.MutelemetryStreamer.CollectDefinitions | src/mutelemetry_network.cc:210-236 | the first loop ends at the first data packet, with discarding switched on |
| StreamerClass.MutelemetryStreamer.KeepDefinition | src/mutelemetry_network.cc:234-235 | the message dequeued is the one looked at, and goes to the end of the definitions |
| StreamerClass.MutelemetryStreamer.SendDefinition | src/mutelemetry_network.cc:247-267 | one sending round leaves `seq_` and the definitions as they are |
| StreamerClass.MutelemetryStreamer.NextDefinition | src/mutelemetry_network.cc:269-279 | the ACK_RECV round moves on to the next definition |
| StreamerClass.MutelemetryStreamer.AwaitAck | src/mutelemetry_network.cc:287-301 | the ACK_WAIT round adds 50 modulo 65536 to the timeout and stays at the definition; when it resends is TimeoutAtTwenty |
| StreamerClass.MutelemetryStreamer.SetState | include/mutelemetry/mutelemetry_network.h:116-118 | an exchange succeeds exactly if the state is the expected one, and changes it only then |
| StreamerClass.MutelemetryStreamer.SendUlogAck | src/mutelemetry_network.cc:183-204 | a definition within the payload goes out under its 16-bit sequence number and restarts the timeout; a longer one is refused |
| StreamerClass.MutelemetryStreamer.DiscardMessages | src/mutelemetry_network.cc:314-322 | the discard loop ends only when the streamer runs |
| Discarding.NothingDropped | src/mutelemetry_network.cc:365-369 | without real time every message enqueued is a definition, was taken by `main_loop` or is still queued |
| Discarding.AllDropped | src/mutelemetry_network.cc:314-322 | in real time, for any messages with data among them, a run in which everything behind the definitions is dropped before the streamer runs |
| Discarding.DropsOneMore | src/mutelemetry_network.cc:314-322 | once the streamer runs the discard thread drops at most one message more, the one it was about to take |
| StreamerClass.MutelemetryStreamer.SendOrSkip | src/mutelemetry_network.cc:336-361 | a message is sent and counted as sent exactly if the streamer is not stopped and the message fits, else counted as skipped |
| StreamerClass.MutelemetryStreamer.CompareAck | src/mutelemetry_network.cc:122-124 | the new state is ACK_RECV exactly if the ack is the low 16 bits of `seq_` |
| StreamerClass.MutelemetryStreamer.ChooseState | src/mutelemetry_network.cc:36-64 | which state a command asks for, and that only a first start sets the target |
| StopStart.CommandHandled | src/mutelemetry_network.cc:36-64 | what each command leads to: the first start connects and sets the target; from then on the target, and nobody else, stops the running stream and starts the stopped one; all else changes nothing |
| StopStart.TargetCommands | src/mutelemetry_network.cc:43-46 | in every run with a definition the target is an address that commands can come from, once a start has been handled |
| StopStart.StopsAndStarts | src/mutelemetry_network.cc:36-64 | stopped by its target, a running streamer skips and counts all that is queued; started by it again, it sends what is enqueued next |
| StopStart.SendsBehindStart | src/mutelemetry_network.cc:324-363 | for any definitions that fit, a run from the start that sends them, is stopped, is started and then sends a datagram |
| StreamerClass.StepKept | src/mutelemetry_network.cc:206-363 | what the other threads leave alone while one thread is between two operations |
| StreamerTheorems.CompareExchanges | src/mutelemetry_network.cc:246-301 | for a stream with at least one definition: no exchange out of CONNECTED, SEND_DEF, RESEND_DEF or ACK_RECV is ever lost, nor the command handler's: each finds the state it expects; an ack handler about to succeed compared its ack with the current `seq_` |
| StreamerTheorems.ExchangesSucceedIff | src/mutelemetry_network.cc:246-312 | for any stream: those exchanges and the one at the exit succeed in every interleaving if and only if the first message is not data |
| StreamerTheorems.StartRace | src/mutelemetry_network.cc:309-310 | the run in which a start command slips between the exit's load and its exchange, and the exchange is lost |
| StreamerClass.MutelemetryStreamer.SendQueued | src/mutelemetry_network.cc:324-363 | the messages handled are those that main_loop dequeued in the call, all of them and in order; of these it sends exactly those that fit, unless it saw the streamer stopped, and counts them; it comes back only from a look that found the streamer not running or the queue empty |
| StreamerClass.MutelemetryStreamer.HandleLoggingAck | src/mutelemetry_network.cc:112-140 | the ack handler compares and exchanges exactly if the state it loaded was ACK_WAIT, with other threads in between |
| StreamerClass.MutelemetryStreamer.HandleCommand | src/mutelemetry_network.cc:17-70 | the command handler exchanges exactly if state and target, as it saw them, let the command ask for a new state |
| Pipeline.ClientAcceptsIff | tests/mutelemetry_client.cc:61-115 | the whole pipeline, for callers that begin in order (registrations before stores, logged messages behind a stored sample), at most 65536 types and definitions, and acyclic formats of which no type is named like an instance of one with more or fewer columns: in every interleaving of callers and streamer, over any network and whatever lies behind a message in the payload buffer, every packet passes the client's check if and only if no logged message arrives before the first sample |
| Pipeline.ClientReadsSamples | tests/mutelemetry_client.cc:61-115 | the whole pipeline, under the same premises and with no type named like an instance of one with other columns: when logged messages arrive behind a sample, the data handler gets exactly the leaves of the samples whose packets arrived, in the order of arrival, each twice |
| Pipeline.DatagramsAreCalls | src/mutelemetry_network.cc:332-361 | every LOGGING_DATA packet is a packet that some caller enqueued, unchanged, from the first sample on |
| Payloads.RunSendsTaken | src/mutelemetry_network.cc:154-361 | in every run each LOGGING_DATA packet has at most 249 bytes and was dequeued by `main_loop` |
| Payloads.CanBeSentIff | src/mutelemetry_network.cc:152-361 | a message leaves as LOGGING_DATA in some run if and only if it is enqueued from the first data packet on, has at most 249 bytes, and so has every message before that packet |
| Arrivals.SampleArrivesIff | src/mutelemetry_network.cc:152-361 | for every run of callers whose messages are legal, in any order and interleaving: a stored sample leaves in some run of the streamer if and only if its packet has at most 249 bytes, `11 + |name| + |data| <= 249`, and so has every message before the first sample |
| Arrivals.StoredArrivesIff | src/mutelemetry_network.cc:152-361 | likewise for everything stored or logged from the first sample on, with the exact size of each message |
| Arrivals.FittingSamplesRead | tests/mutelemetry_client.cc:61-115 | under the premises of ClientReadsSamples, when the definitions fit: a run and a network with which the data handler gets every sample that fits, in the order of enqueueing, with its time and leaves, and each twice |
| Pipeline.AcceptedOpens | src/mutelemetry_network.cc:216-236 | the definitions the client holds are the beginning of what the callers enqueued before the first sample, and all of it once data flows |
| Pipeline.BeginsLikeData | src/mutelemetry_tools.cc:9-13 | of the API's packets exactly those of stored samples are taken for data |
| Tails.ParseTail | src/mutelemetry_parse.cc:41-73 | in every state, what `parse` makes of a buffer without leaving it, it makes of every longer buffer |
| Tails.FeedAllTail | tests/mutelemetry_client.cc:68-99 | so a run over the client's longer payload buffers goes as the run over the messages alone |
| ClientClass.Client.LoggingDataAcked | tests/mutelemetry_client.cc:80-115 | the handler keeps a sequence number once, checks its data only then, and acknowledges always, as the transition system's client does; its parser stays where the checks so far lead |
| ClientClass.Client.LoggingData | tests/mutelemetry_client.cc:61-79 | every data packet is counted and checked; the check is false exactly if the run so far is not accepted |
| ClientClass.EachPasses | tests/mutelemetry_client.cc:69-102 | in a run that passes, each single check is defined and passes, so the client's assertions hold |
| Text.SplitString | src/mutelemetry_parse.cc:23-39 | the loop computes the split: the pieces between delimiters, with no piece behind a final one |
| Text.SplitTerminated | src/mutelemetry_parse.cc:23-39 | splitting pieces that were each ended by the delimiter gives the pieces back |
| Text.SplitRejoins | src/mutelemetry_parse.cc:23-39 | of any text: no piece has a delimiter in it, and the pieces, each followed by one, are the text again with one at its end |
| Text.FoldDec | src/mutelemetry_parse.cc:321-330 | reading digits one by one undoes writing a number in decimal |
| FormatText.ReadFormat | src/mutelemetry_parse.cc:236-344 | the parsing loops compute the format, its absence or the fault of the text |
| FormatText.ReadFields | src/mutelemetry_parse.cc:254-339 | the loop over sections appends each field but the timestamp, and stops at the first fault |
| FormatText.ReadArraySize | src/mutelemetry_parse.cc:319-330 | the loop over a size reads it as the specification does, reading past the text and an overflow of `int` on the way included |
| FormatText.CutOther | src/mutelemetry_parse.cc:301-312 | the name ends before the last bracket, and the rest starts at the first |
| FormatRoundTrip.SizeParses | src/mutelemetry_parse.cc:319-330 | a size written in decimal is read back if it is at most 2147483599, and overflows `int` if it is larger |
| FormatRoundTrip.OneCharacterSize | src/mutelemetry_parse.cc:321-329 | a size of one character is that character less 48, digit or not; a bracket that is not closed is read past |
| FormatRoundTrip.NamelessFails | src/mutelemetry_parse.cc:257-259 | a section without a second word throws |
| FormatRoundTrip.FieldParses | src/mutelemetry_parse.cc:256-338 | any declared field, builtin or nested, array or not, is read back from its text |
| FormatRoundTrip.FormatTextParses | src/mutelemetry_parse.cc:236-344 | parsing the rendered text of any list of fields gives exactly those fields |
| FormatRoundTrip.RegisteredFormatParses | src/mutelemetry.cc:254-273 | through `register_data_format` the fields come back with a NUL added to the last name, and the timestamp dropped |
| FormatRoundTrip.EmptyFormatParses | src/mutelemetry.cc:260-264 | with no fields it is the timestamp's own name that gets the NUL, and so becomes a field |
| Layout.NamesFollow | src/mutelemetry_parse.cc:75-108 | `create_timeseries` makes one column for each leaf of the flattened layout |
| Layout.FillFollows | src/mutelemetry_parse.cc:572-659 | the recursive data walk is one pass over the flattened layout |
| LayoutTheorems.FillSlotsEffect | src/mutelemetry_parse.cc:649-655 | that pass writes exactly the leaves found, one to a column, and moves index and pointer by their number and size, or leaves its bounds |
| LayoutTheorems.WalksAgree | src/mutelemetry_parse.cc:572-659 | for every acyclic format map the two walks agree: the index stays in bounds and ends at the column count, and the pointer ends behind the flattened layout |
| LayoutTheorems.NamesDefined | src/mutelemetry_parse.cc:81-106 | with nested formats present and no cycle the recursion ends and throws nothing |
| FieldTypes.WordsTellSizes | src/mutelemetry_parse.cc:585-641 | each integer word says how many bits are read for its field, eight to a byte; float, double, bool and char have 4, 8, 1 and 1 bytes |
| FieldTypes.ScalarsRead | src/mutelemetry_parse.cc:582-655 | fields that are no arrays are read one behind the other: each from where the one before ended, into its own column |
| FieldTypes.AllRead | src/mutelemetry_parse.cc:584-641 | one field of each of the twelve types: at the offsets 0, 1, 2, 4, 6, 10, 14, 22, 30, 34, 42 and 43, ending at 44 |
| FieldTypes.AllReadBack | src/mutelemetry_parse.cc:584-641 | any twelve values written in 1, 1, 2, 2, 4, 4, 8, 8, 4, 8, 1 and 1 bytes are read back |
| FieldTypes.AllTake | src/mutelemetry_parse.cc:584-641 | any sample of these twelve fields has 44 bytes |
| FieldTypes.AllParse | src/mutelemetry_parse.cc:262-297 | the text with the twelve words is read as these fields |
| ColumnPaths.Decimal | src/mutelemetry_parse.cc:92 | the number of an element is written in decimal digits, at least two |
| ColumnPaths.ScalarColumn | src/mutelemetry_parse.cc:83-97 | a builtin field that is no array makes exactly the column prefix, slash, name, with nothing behind it; padding makes none |
| ColumnPaths.ArrayColumns | src/mutelemetry_parse.cc:88-97 | element i of a builtin array has exactly a dot and i in at least two digits behind that; only arrays above 100000000 elements leave the buffer of the number |
| ColumnPaths.NestedColumns | src/mutelemetry_parse.cc:98-101 | a nested field has the columns of its format under its own path |
| ColumnPaths.NestedArrayColumns | src/mutelemetry_parse.cc:88-101 | a nested array has them once for each element, under the path with the element's number |
| ColumnPaths.ColumnsAppend | src/mutelemetry_parse.cc:83 | each field of a format adds its own columns behind those of the fields before it |
| LayoutWalks.AppendVector | src/mutelemetry_parse.cc:81-104 | the recursive lambda appends exactly the specified names, whose closed form is that of ColumnPaths, or ends with the same fault |
| LayoutWalks.ParseDataIntl | src/mutelemetry_parse.cc:572-659 | the loops with pointer and index compute the specified walk, whose sizes are those of FieldTypes |
| LayoutWalks.CreateColumns | src/mutelemetry_parse.cc:75-108 | the columns of a new series are all empty and named by the walk; for the test types see TypeColumns |
| DistinctColumns.ColumnNamesDistinct | src/mutelemetry_parse.cc:81-106 | column names are pairwise distinct for every format map with distinct field names free of `/` and `.` |
| Samples.ItemsRead | tests/mutelemetry_test.cc:51-119 | the slots of a format read exactly the leaves of any sample in the nested encoding, timestamps and padding stepped over |
| ParserClass.MutelemetryParser.Read | src/mutelemetry_parse.cc:41-73 | `parse` moves the parser's fields as the specification says, or fails with the same fault, in every state and for every buffer on which the recursion over formats ends |
| ParserClass.MutelemetryParser.ReadFlags | src/mutelemetry_parse.cc:128-167 | the flag loop finds an unknown incompatible bit exactly if there is one |
| ParserClass.MutelemetryParser.ReadInfo | src/mutelemetry_parse.cc:169-226 | an info is inserted under the second word of its key unless that is taken |
| ParserClass.MutelemetryParser.ReadFormatMessage | src/mutelemetry_parse.cc:236-344 | a format replaces the entry of its name; a text without colon makes the parser INVALID |
| ParserClass.MutelemetryParser.ReadParam | src/mutelemetry_parse.cc:346-384 | a parameter is appended, or the parser goes INVALID |
| ParserClass.MutelemetryParser.ReadAdd | src/mutelemetry_parse.cc:386-404 | a subscription keeps the first entry of its id and marks types with instances |
| ParserClass.MutelemetryParser.ReadDataMessage | src/mutelemetry_parse.cc:448-483 | data goes to the series of its subscription's first entry, and data without one is passed over |
| ParserClass.MutelemetryParser.StoreSample | src/mutelemetry_parse.cc:463-479 | a series is created on first use, gets one timestamp and its leaves, and is handed on |
| ParserClass.MutelemetryParser.ReadLogged | src/mutelemetry_parse.cc:485-500 | a logged message is appended with its level and time |
| ParserClass.MutelemetryParser.ReadDefinition | src/mutelemetry_parse.cc:406-446 | the definitions state's switch, a subscription with data behind it included |
| ParserClass.MutelemetryParser.ReadData | src/mutelemetry_parse.cc:522-570 | the data state's switch with its fall-through from subscription to data |
| ParserClass.MutelemetryParser.CheckValid | src/mutelemetry_tools.cc:15-26 | `check_ulog_valid` parses a data packet and then its data again, in every state and for every buffer on which the recursion over formats ends |
| WireFormat.HeaderAcceptedIff | include/mutelemetry/mutelemetry_ulog.h:52-57 | in HEADER a buffer leads on to FLAGS, with the time in bytes 8 to 15, if and only if it begins with 55 4c 6f 67 01 12 35; else to INVALID |
| WireFormat.FlagsAcceptedIff | src/mutelemetry_parse.cc:128-167 | in FLAGS exactly a message of type 42 hex leads on that sets no incompatible bit but the lowest of the first byte |
| Verdicts.DefinitionVerdict | src/mutelemetry_parse.cc:406-446 | the state behind every buffer that is read in DEFINITION, by its type byte, the colon of a format and the first word of a parameter |
| Verdicts.DataVerdict | src/mutelemetry_parse.cc:522-570 | likewise in DEFINITION_OR_DATA: which nine letters are accepted |
| Verdicts.ReadOver | src/mutelemetry_parse.cc:228-234 | multi infos change nothing in either state, sync and dropout messages nothing among data |
| Verdicts.RemovedIsIgnored | src/mutelemetry_parse.cc:516-520 | a remove message ends exactly the subscription of its id, and samples with that id are then read over |
| Verdicts.InfoKinds | src/mutelemetry_parse.cc:181-222 | which words make an info a text of the message, which a number, and that any other gives an empty text |
| ParserClass.GetLatestData | include/mutelemetry/mutelemetry_parse.h:103-111 | the loop pairs every column's name with its last value |
| ParserInvariants.FormatsFrozen | src/mutelemetry_parse.cc:522-570 | no buffer changes the formats in the data section |
| ParserInvariants.RunsCoherent | src/mutelemetry_parse.cc:386-483 | in every run each subscription's format is the parser's format of its name, and each series holds one timestamp and one value to a column |
| ParserInvariants.LatestDefined | include/mutelemetry/mutelemetry_parse.h:103-111 | a stored sample leaves no column empty, so the latest data has a last element everywhere |
| ParserInvariants.FillWrites | src/mutelemetry_parse.cc:572-659 | any data walk that succeeds, over any formats, wrote one value into each of the first columns and nothing else |
| SeriesShape.DataTwice | src/mutelemetry_parse.cc:448-483 | parsing a data message again changes nothing but one more call of the handler with the same sample |
| SeriesShape.CheckValidParsesOnce | src/mutelemetry_tools.cc:15-26 | `check_ulog_valid` leaves the state one `parse` leaves; only the handler is called twice |
| TypeCollisions.RunsShaped | src/mutelemetry_parse.cc:457-466 | in every run over formats that do not collide each series keeps the columns of its type |
| TypeCollisions.CollisionBreaks | src/mutelemetry_parse.cc:457-466 | any collision gives a run that stores a type's data in another type's series |
| TypeCollisions.ShapeKeptIff | src/mutelemetry_parse.cc:457-466 | all runs keep the columns if and only if no type is named like an instance of a type with other columns |
| RoundTrips.FileHeaderParses | include/mutelemetry/mutelemetry_ulog.h:40-57 | the file header gives the start time back |
| RoundTrips.FlagBitsParse | src/mutelemetry.cc:135-141 | the flag bits message opens the definitions |
| WireFormat.FileHeaderBytes | include/mutelemetry/mutelemetry_ulog.h:36-50 | the first message is 55 4c 6f 67 01 12 35, version 01 and the start time |
| WireFormat.FlagBitsBytes | src/mutelemetry.cc:135-141 | the second is 28 00 42 hex and forty zeros |
| WireFormat.LowByteFirst | include/mutelemetry/mutelemetry_ulog.h:62-68 | numbers lie in a message with their low byte first |
| WireFormat.ParamBytes | src/mutelemetry.cc:146-196 | the bytes of every parameter message, and that none is sent exactly if the key, up to its NUL and modulo 256, has more than 250 characters |
| WireFormat.InfoMessageBytes | src/mutelemetry.cc:198-223 | the bytes of every info, whose key field begins with the value's length in brackets, and exactly when none is sent |
| WireFormat.MultiInfoBytes | src/mutelemetry.cc:225-252 | likewise for a multi info, with the byte that says whether it continues |
| WireFormat.FormatBytes | src/mutelemetry.cc:254-273 | the bytes of a format: name, colon, timestamp field, fields, and NUL over the last character |
| WireFormat.FormatRefused | src/mutelemetry.cc:260-263 | a text leaves its field exactly if it has more than 1500 characters and no NUL among the first 1500, and is refused exactly if it has a NUL where it is not |
| WireFormat.SamplePacketBytes | src/mutelemetry.cc:275-320 | the bytes of every sample's packet, and exactly when a name leaves its field or a value is refused |
| WireFormat.LogMessageBytes | src/mutelemetry.cc:322-348 | the bytes of every logged message, and that texts of more than 1499 characters are not sent |
| RoundTrips.ParamRoundTrip | src/mutelemetry.cc:146-196 | any parameter with at most 250 bytes of key comes back whole, or makes the parser INVALID, exactly by its type word |
| RoundTrips.InfoParses | src/mutelemetry.cc:198-223 | an info of at most 254 bytes comes back under the first word of its key unless that is taken |
| RoundTrips.InfoRoundTrip | src/mutelemetry_parse.cc:169-226 | a new info is found under its own key if and only if the key has no space |
| RoundTrips.LogRoundTrip | src/mutelemetry.cc:322-348 | a message of at most 1499 bytes comes back with level, time and text |
| RoundTrips.FormatRegisters | src/mutelemetry.cc:254-273 | a registered format replaces the parser's entry by the fields its text stands for |
| RoundTrips.PacketParses | src/mutelemetry.cc:275-320 | a data packet is parsed as its subscription and then its sample |
| Events.PacketType | src/mutelemetry.cc:146-348 | every legal message is sent, under the type of its kind |
| Events.FormatRejected | src/mutelemetry_parse.cc:522-570 | a format behind the first sample makes the parser INVALID |
| Events.LogRejected | src/mutelemetry_parse.cc:406-446 | a logged message before the first sample makes the parser INVALID |
| Events.BeginningAccepted | src/mutelemetry_parse.cc:66-72 | INVALID is never left: what a run passes, each of its beginnings passes |
| Streams.SubscriptionFound | src/mutelemetry_parse.cc:398-401 | allocator and parser agree: the entry under a packet's id is one of its type, although the first entry is kept |
| Streams.SampleFollows | src/mutelemetry_parse.cc:522-543 | a legal sample is accepted in any state past the flags and keeps what is known of types, instances and series |
| Streams.AcceptedIff | src/mutelemetry_parse.cc:406-570 | a stream of legal messages is accepted, by `parse` or by `check_ulog_valid`, if and only if formats come before the first sample and logged messages after it |
| EndToEnd.SampleDelivered | src/mutelemetry.cc:275-320 | parsing the packet of a serialized sample leaves its series with the given time and, column by column, its leaves, and hands on the same |
| EndToEnd.StreamDelivered | src/mutelemetry_parse.cc:448-483 | over any accepted stream the data handler is called for each sample, in order, with its time and leaves: once by `parse`, twice by `check_ulog_valid` |
| EndToEnd.NamedWhole | src/mutelemetry_parse.cc:75-108 | a serialized sample has exactly one column for every leaf |
| Callers.RunKeepsInv | src/mutelemetry.cc:275-320 | in every interleaving of calls the queue holds exactly the packets of its messages, under ids that the tables hold then and ever after |
| Callers.RunIds | include/mutelemetry/mutelemetry.h:61-65 | with at most 65536 types each has a message id of its own, in every interleaving |
| ApiStream.DisciplineKeepsOrder | src/mutelemetry.cc:254-348 | when registrations return before the first store begins and logged messages begin after the first sample is stored, the queue is in order, however the steps interleave |
| ApiStream.OutputAcceptedIff | src/mutelemetry_parse.cc:41-73 | in every interleaving the output is accepted if and only if formats come before the first sample and logged messages after it |
| ApiStream.StreamAccepted | src/mutelemetry_parse.cc:41-73 | every output of callers that begin in order is accepted, when no type is named like an instance of one with more or fewer columns |
| ApiStream.OutputDelivered | src/mutelemetry_parse.cc:448-483 | and every sample is handed on, in the order of enqueueing, when no type is named like an instance of one with other columns |
| Instances.TablesFollow | include/mutelemetry/mutelemetry.h:94-100 | with at most 65536 types each type's multi ids come from a table of its own annotations alone, in every interleaving |
| Instances.SampleInstance | include/mutelemetry/mutelemetry.h:94-111 | a sample's multi id is the place of its annotation among those its type asked ids for, in eight bits |
| Instances.InstancesDistinctIff | include/mutelemetry/mutelemetry.h:94-111 | message id and multi id tell the instances of a type apart if and only if it has at most 256 |
| Instances.DeliveredNames | src/mutelemetry_parse.cc:455-461 | the name a type's data is delivered under: its own while only instance 0 is stored, else that of the instance enqueued first; it is `.00` if and only if that instance asked for its id in turn 0 (modulo 256) |
| Serial.SerialNames | src/mutelemetry_parse.cc:455-461 | with one caller at a time: its own until a second instance is stored, then `.00` |
| Serial.CallAlone | src/mutelemetry.cc:275-320 | a call that runs by itself takes the ids of both tables and enqueues in one go |
| Clashes.ClashFails | src/mutelemetry_parse.cc:572-659 | of a type and a namesake of its instance, whichever has fewer columns opens the series and the other leaves its bounds |
| Exactness.SerialAcceptedIff | src/mutelemetry_parse.cc:455-479 | with one caller at a time everything done in order is accepted if and only if no type is named like instance 0 of a type with more or fewer columns |
| Races.AnyInstanceFirst | src/mutelemetry.cc:284-313 | any instance of a type can be the first to enqueue, and then names its series |
| Races.AlwaysAcceptedIff | src/mutelemetry_parse.cc:455-479 | with concurrent callers everything done in order is accepted if and only if no type is named like any instance of a type with more or fewer columns |
| Mixups.AlwaysDeliveredIff | src/mutelemetry_parse.cc:448-483 | with concurrent callers every sample is handed on with its time, leaves and columns in all runs if and only if no type is named like any instance of a type with other columns |
| Mixups.SerialDeliveredIff | src/mutelemetry_parse.cc:448-483 | with one caller at a time, if and only if no type is named like instance 0 of a type with other columns |
| ZeroSamples.ZeroSerializes | tests/mutelemetry_test.cc:51-119 | every acyclic format has a serialized sample, the one of zeros |
| TelemetryRun.CallIsAfter | src/mutelemetry.cc:146-348 | a call that stays within its bounds changes tables and queue as a call of the transition system that runs by itself |
| TelemetryRun.MakeCalls | src/mutelemetry.cc:146-348 | the class over any sequence of calls: as long as none leaves its bounds, its tables are the run's and its queues hold header, flags and the run's messages |
| TelemetryRun.RunTelemetry | src/mutelemetry.cc:126-144 | the same from construction on |
| Allocation.CallsAreSequential | include/mutelemetry/mutelemetry.h:61-65 | over every call sequence the names get 0, 1, 2, ... in the order first seen, modulo the counter's width |
| Allocation.IdsStable | include/mutelemetry/mutelemetry.h:61-65 | no later call changes an id given out |
| Allocation.IdsInjectiveIff | include/mutelemetry/mutelemetry.h:61-65 | ids tell names apart over a whole run if and only if no more names were used than the counter has values |
| TelemetryClass.ID.GetId | include/mutelemetry/mutelemetry.h:61-65 | a known name keeps its id; a new one gets the counter, which wraps at its width |
| TelemetryClass.MuTelemetry.GetMultiId | include/mutelemetry/mutelemetry.h:94-100 | only the table of the given message id changes |
| TelemetryClass.MuTelemetry.GetIds | include/mutelemetry/mutelemetry.h:107-111 | both ids, and both tables after the call |
| TelemetryClass.MuTelemetry.ToIo | include/mutelemetry/mutelemetry.h:122-125 | the message goes to the back of every queue that is in use |
| TelemetryClass.MuTelemetry.RegisterParam | src/mutelemetry.cc:146-196 | the structure filled in place is the specified message, enqueued once; a key that leaves no room sends nothing |
| TelemetryClass.MuTelemetry.RegisterInfo | src/mutelemetry.cc:198-223 | likewise for an info with its `char[n]` key |
| TelemetryClass.MuTelemetry.RegisterInfoMulti | src/mutelemetry.cc:225-252 | likewise for a multi info |
| TelemetryClass.MuTelemetry.RegisterDataFormat | src/mutelemetry.cc:254-273 | likewise for a format, whose last character is overwritten by NUL; too long a text leaves the structure |
| TelemetryClass.MuTelemetry.StoreData | src/mutelemetry.cc:275-320 | ids are given out, and subscription and data go out as one message with the timestamp over the caller's first eight bytes |
| TelemetryClass.MuTelemetry.StoreMessage | src/mutelemetry.cc:322-348 | likewise for a logged message |
| TelemetryClass.MuTelemetry.CreateHeaderAndFlags | src/mutelemetry.cc:126-144 | enqueued are, in this order, the sixteen bytes 55 4c 6f 67 01 12 35 01 and start time, and 28 00 42 hex with forty zeros |
| TelemetryClass.WriteTo | include/mutelemetry/mutelemetry_ulog.h:40-50 | the buffer holds 55 4c 6f 67 01 12 35 01 and the time |
| Serializers.Serialize0 | tests/test_types.h:44-57 | the copies with a running length build the nested encoding of the value |
| Serializers.Serialize1 | tests/mutelemetry_test.cc:33-48 | arrays are copied element by element behind the timestamp |
| Serializers.Serialize2 | tests/mutelemetry_test.cc:51-76 | the vector that grows string by string is the nested encoding, for vectors and strings of any length, and its last byte is 1 if the flag is set and else 0 |
| Serializers.Serialize3 | tests/mutelemetry_test.cc:78-100 | nested values are appended with a timestamp each |
| Serializers.Serialize4 | tests/mutelemetry_test.cc:102-119 | nested arrays of nested values likewise |
| TestTypes.SerializersFit | tests/mutelemetry_test.cc:51-119 | what the serializers build are samples of the formats the test registers |
| TestTypes.DefinitionsRegister | tests/mutelemetry_test.cc:296-305 | the formats the parser has after everything the program registers are those of its five types |
| TestMessages.FormatsSent | tests/test_types.h:28-31 | the field texts of the five registrations, in order, behind four properties |
| TestMessages.CompanySent | tests/mutelemetry_test.cc:296 | the bytes of the first info |
| TestMessages.SystemSent | tests/mutelemetry_test.cc:297 | the bytes of the second |
| TestMessages.IntegerSent | tests/mutelemetry_test.cc:299 | the bytes of the fourth message, the integer parameter |
| TestMessages.FloatSent | tests/mutelemetry_test.cc:305 | the tenth and last is the float -3.01, in its four bytes |
| TestColumns.TypeColumns | src/mutelemetry_parse.cc:75-108 | the columns of the five types name by name: `/a`, `/b` and `/c` with NUL for DataType0, `/a.00` to `/a.02` for the array of DataType1, `/a.00/a` for the first of DataType3 |
| TestLeaves.Leaves2 | tests/mutelemetry_test.cc:51-76 | the leaves of a DataType2 are its numbers, its characters and last its flag, 1 exactly if it is set and else 0 |
| TestLeaves.Handed0 | tests/test_types.h:44-57 | the data handler gets a DataType0 as `/a`, `/b` and `/c` with their values |
| TestLeaves.Handed1 | tests/mutelemetry_test.cc:33-48 | and a DataType1 as its seven array elements, each under its own name |
| TestLeaves.Handed2 | tests/mutelemetry_test.cc:51-76 | and a DataType2 as three numbers, thirteen characters and the flag |
| TestLeaves.Handed3 | tests/mutelemetry_test.cc:78-100 | and a DataType3 as what it is made of, each part under its path |
| TestLeaves.Handed4 | tests/mutelemetry_test.cc:102-119 | and a DataType4 as three of these |
| TestLeaves.Bytes0 | tests/test_types.h:44-57 | a serialized DataType0 is its time, then 8, 4 and 2 bytes |
| TestLeaves.Bytes1 | tests/mutelemetry_test.cc:33-48 | a DataType1 is eight zeros and four bytes for each element |
| TestLeaves.Bytes2 | tests/mutelemetry_test.cc:51-76 | a DataType2 is eight zeros, eight bytes for each number, the characters, and 1 or 0 |
| TestLeaves.Bytes3 | tests/mutelemetry_test.cc:78-100 | a DataType3 is eight zeros and its five values one behind the other |
| TestLeaves.Bytes4 | tests/mutelemetry_test.cc:102-119 | a DataType4 is eight zeros and three of these |
| TestProgram.ProgramLegal | tests/mutelemetry_test.cc:296-305 | the program's infos, parameters and formats are all legal |
| TestProgram.ThreadsDisciplined | tests/mutelemetry_test.cc:140-235 | its threads' calls begin in order however they interleave, since each logs only after it has stored |
| TestProgram.TestProgramDelivered | tests/mutelemetry_test.cc:140-235 | whatever values of its five types its threads store, under whatever annotations and in whatever interleaving of the steps of their calls: the queue's output, given to a parser, is accepted and exactly those values are handed on |
| TestSizes.SerializedValue | tests/mutelemetry_test.cc:51-119 | a serialized value of the five types has 22, 36, 46, 156 and 476 bytes |
| TestArrivals.ThreadsStore | tests/mutelemetry_test.cc:140-235 | in every interleaving what the threads enqueue before the first sample are the program's definitions, and every sample enqueued is a serialized value of its type |
| TestThreads.ValuesMayBeStored | tests/mutelemetry_test.cc:140-235 | any values of the five types, serialized, may be stored by the threads at any time |
| TestThreads.DeliveredUnder | tests/mutelemetry_test.cc:140-235 | with the annotations the threads use and in every interleaving: DataType1 to DataType4 are delivered under their own names, DataType0 under its own or with `.00`, `.01` or `.02` |
| TestArrivals.TestSampleArrivesIff | tests/mutelemetry_test.cc:140-235 | in every interleaving a sample of the program can leave as data if and only if it is not of DataType4 and the info with the log's name fits its packet |
| TestArrivals.TestSamplesRead | tests/mutelemetry_test.cc:140-235 | if that info fits, a run and a network with which the client's handler gets every sample of the other four types, in order, and each twice |
| Logger.DataBuffer.Add | include/mutelemetry/mutelemetry_logger.h:29-37 | the message is appended, and the buffer is full exactly from 4096 bytes on |
| Logger.DataBuffer.Data | include/mutelemetry/mutelemetry_logger.h:57-66 | the loop gives the messages in one piece, in order |
| Logger.MutelemetryLogger.constructor | src/mutelemetry_logger.cc:16-21 | eight empty buffers, one current and seven stacked |
| Logger.MutelemetryLogger.Init | src/mutelemetry_logger.cc:23-38 | succeeds once, with a queue and a file that opens, and leaves the pool alone |
| Logger.MutelemetryLogger.StartIoWorker | src/mutelemetry_logger.cc:52-71 | the buffer's bytes go to the end of the file and the empty buffer to the stack; at no point is a byte lost or doubled |
| Logger.MutelemetryLogger.Swap | src/mutelemetry_logger.cc:80-90 | the stack is never empty here, and the new current buffer is |
| Logger.MutelemetryLogger.TakeMessage | src/mutelemetry_logger.cc:96-108 | one message moves from the queue to the end of the current buffer |
| Logger.MutelemetryLogger.Drain | src/mutelemetry_logger.cc:76-109 | messages taken and queued are those before and then exactly those that arrived at the looks made; the queue is left empty unless the last look met a failed exchange |
| Logger.MutelemetryLogger.MainLoop | src/mutelemetry_logger.cc:73-131 | the same for one call, which changes nothing when the logger does not run; what was taken stays taken, no queued message becomes too large, and a buffer that is old is written; the next call starts from there |
| Logger.MutelemetryLogger.BytesAreMessages | src/mutelemetry_logger.cc:73-131 | between any two operations, file, current buffer and queue together are the messages taken and then those queued |
| Logger.MutelemetryLogger.Release | src/mutelemetry_logger.cc:40-50 | afterwards the file is all messages taken, in order |
| LoggerRun.MakeTurns | src/mutelemetry_logger.cc:73-131 | any number of calls of `main_loop` take up what arrives at their looks, one after the other, with nothing lost or invented between them |
| LoggerRun.RunLogger | src/mutelemetry_logger.cc:16-131 | a whole run from constructor to release: what is in the file and what is left in the queue are, in order, exactly what was there at first, what arrived at the looks and what came later; nothing that was there at the last look is left unless an exchange failed then |
| LogFile.LogCalls | src/mutelemetry_logger.cc:73-131 | a run of the logger on what concurrent callers enqueue, however it arrives: the file holds the beginning of the API's output, and all of it when the logger looked behind the last arrival and no exchange failed then |
| LogFile.LogTelemetry | src/mutelemetry.cc:126-144 | `MuTelemetry` from construction on and a logger on its queue: header, flags and every message of the calls are in the file, in order |
| LogFile.OutputFits | src/mutelemetry_logger.cc:96-98 | no message of the API is larger than a buffer, whatever its callers do, so the assertion of `main_loop` on the size holds |
| LogFile.PacketRead | include/mutelemetry/mutelemetry_ulog.h:64-130 | every legal message can be told from what lies behind it by the sizes in its headers, a sample's packet being two messages |
| LogFile.FileReadsBack | src/mutelemetry_tools.cc:15-26 | a parser moved over the file by those sizes ends as `check_ulog_valid` over the messages one by one, for any beginning of the output of any concurrent callers of at most 65536 types whose messages are legal, with acyclic formats and no clash of columns, and is not INVALID when formats come before the first sample and logged messages after it |
| LogFile.FileDelivers | src/mutelemetry_parse.cc:448-483 | and it hands on every sample that was stored, in order, with its time and leaves, each twice |
| Logger.FlatAppend | include/mutelemetry/mutelemetry_logger.h:57-66 | concatenating lists of messages concatenates their bytes |
| PostedIo.RunKeepsInv | src/mutelemetry_logger.cc:52-71 | with posted I/O, in every run: each buffer is current, stacked or with one job; stacked buffers are empty; each job carries its messages; each is written once |
| PostedIo.PoolCount | src/mutelemetry_logger.cc:80-83 | stacked buffers and buffers being written are seven in every run, so the pool is exhausted exactly while seven are being written |
| PostedIo.FreshCurrent | src/mutelemetry_logger.cc:84-89 | the buffer exchanged in is empty in every run |
| PostedIo.TakenBelow | src/mutelemetry_logger.cc:76-108 | in every run a message is taken exactly if the current buffer has less than 4096 bytes |
| PostedIo.AllWritten | src/mutelemetry_logger.cc:52-71 | when all jobs are done every chunk was written exactly once; in posting order the file is the messages taken less the current buffer |
| PostedIo.Overtaken | src/mutelemetry_logger.cc:53-69 | a run in which the second job writes first and the file is out of order |
| PostedOrder.NoOverlapInOrder | src/mutelemetry_logger.cc:52-90 | in every run in which no buffer is exchanged while a job is unfinished, jobs write in posting order and the file is at any time the beginning of the messages taken |
| PostedOrder.StaysInOrderIff | src/mutelemetry_logger.cc:52-71 | from any reachable state in order: the jobs posted so far write in order however their steps continue, without a further exchange, if and only if at most one is unfinished |
| PostedOrder.SwapKeepsOrderIff | src/mutelemetry_logger.cc:80-90 | behind an exchange of buffers the jobs posted by then write in order in every continuation by their own steps, without a further exchange, if and only if no job was unfinished at the time |

## Left out

- A reader of log files: the repository has none. `LogFile.ReadFile` is the reading that the ULog format prescribes, by the header of 16 bytes and then by the size in each message's header, and `parse` is given the file from each message on.
- Mavlink packing, routing, the queue's internals, thread pools and timers: libraries; packets are values, the queue is a sequence, a periodic call is a step.
- Configuration, file names, directories and `init` of the whole: input and output only.
- The clock: timestamps are parameters, and whether a second has passed is an arbitrary choice.
- The meaning of floating-point leaves: they are kept as bits, and no conversion to `double` is interpreted.
- The look-up in the map of multi id tables, which `get_multi_id` does outside the mutex that guards its insertion: a data race on the map itself is not modelled, only the order of the tables' own locked operations.
- A failed write to the log file: after one the logger drops its queue while still running; runs in which writes succeed are modelled.
- Two protocol handlers at the same time, commands from ids above 255, a second client, acks from a stranger: the handlers are run one after the other and one fresh client answers.
- `parse_multi`, `parse_sync` and `parse_dropout`, which do nothing; the text of numeric info values, which are read from the key's own bytes and are kept as that key; the multi-value table, which is never written.
- Builds with the relaxed state machine or with kept data, and `main_loop2`: compiled out.
- Routing data to a series of its own instance: the code does not do it.
- References: series, formats and subscriptions are values in the parser's maps, and a subscription holds a copy of its format where the code holds a pointer into the map; ParserInvariants.RunsCoherent shows that the copy never goes stale.
- Recursion over a cycle of formats has no bound in the code; the specification stops at the second visit to a format on the way (`Endless`), and the methods with the code's loops are given formats on which it ends.
- Parameters of either type are registered by one method, since both copy four bytes.
- Messages shorter than a message header in the streamer's queue, which the API never enqueues.
- The client's start and stop commands and its acknowledgement flags: any command may arrive at any time.
- StreamerTheorems.StreamConservation: a message is taken in one step and counted in the next, so at most one message of each reader is taken and not yet counted.
- EndToEnd.SampleDelivered: for formats in which no type is named like an instance, below the bound, of one with other columns; Mixups.AlwaysDeliveredIff and Mixups.SerialDeliveredIff show that nothing less will do for all runs.
- Serial.CallAlone: the locks inside one call are single steps; a call that runs by itself is the four steps of `Callers` in a row.
