# Latency-arbitrage engine: a verified model

This project models five state machines of the engine and proves what they keep over whole runs.

**FIX 4.4 session.** `FixMessage` is the printer of fields and messages and the tag scanner, `FixBytes` says what they
are on the bytes; `FixSplitter` is the resynchronising frame splitter; `FixOrders` the life of an order from mailbox
to callback; `FixOutbox` the one-write-at-a-time queue and its numbering; `FixSession` the state machine over all
steps of the two threads, with reads, write results, disconnects and time stamps as inputs; `FixAnswers` what a
session takes and answers and when it writes; `FixExecutor` the class with the executor's fields, each method proved
to be one step of that machine. Bytes are `char`s.

**Ring.** `SpscRing` is the ring in sequential use, with its lapping law; `RingInterleaving` takes its loads, slot
accesses and stores as single steps, interleaved arbitrarily, memory sequentially consistent.

**Wire codec.** `WireCodec`, over bytes, prices as integers in millionths; `WireText` says what its printer, its number
readers and its limits are on the bytes.

**Windows.** `Aggregator` and `Momentum`: pruned deques against unbounded history.

**Replay.** `Strategy` and `ExecutionSimulator` are the two objects of a replay, `Replay` the merge and the steps as
functions, `BacktestEngine` the loop and its closures as a class over the same state. The results about whole replays
are in `ReplaySignal` (when a tick signals, and how), `ReplayLedger` (signals and lots), `ReplayExact` (when signals
are lost, exactly), `ReplayAccount` (equity, drawdown), `ReplayRisk` (loss stop, fees, spacing), `ReplayStop` and
`ReplaySpacing` (when these two fail, exactly), `ReplayLife` (the ticks of each trade), `ReplayEdge` (what a trade
earned), `ReplayInstant`, and `ReplayExamples`.

`Bytes`, `Decimal`, `Rounding` and `Wrappers` are shared. Prices and pnl are `real`, times `int`; operations the
source performs by updating fields are class methods whose contracts give the whole new state as a function of the
old one, and the results are lemmas about those functions.

## Where the code and its comments differ

The model follows the code.

- A reconnect keeps `wqueue_`. Frames the old session left unwritten go out on the new stream before its Logon, with
  their old numbers (`FixSession.LeftOverOrder`). Once the new session's own Logon is on the wire, the peer has seen
  1, 2, 3, ... exactly when there were none; before that, exactly when those sent so far are none, or open with a
  Logon and hold no other (`FixSession.PeerNumbering`).
- A gap in the inbound numbers is answered with 35=3 from the number just received, so the missing messages are not
  asked for (`FixSession.GapAnswered`).
- `ring.h` speaks of drop-oldest. A push onto Capacity - 1 items makes head meet tail, which empties the ring.
- `wire.h` says that truncated frames are refused. A frame cut after its seventh comma decodes, with a shortened time
  stamp. Any side but Buy is printed as SELL.
- A rejected fill keeps its lot for good, so with one lot trading ends at the first rejection. With more lots a fill
  can overwrite the held position, whose trade is never recorded; `ReplayExact.ConservationExact` says for which
  configurations.
- The daily loss limit is tested when a signal is emitted only, so an order already in flight can trade below the line.
  `ReplayStop.LossStopExact` says for which configurations.
- `interval_start_ms_` stays 0, so the order cap is a cap over the whole run.
- `day_pnl_` subtracts the commission a second time; the loss gate closes early by one commission a trade.
- BACKTESTING.md lets a position close on a subsequent tick. It may close on the tick that filled it
  (`ReplayExamples.ClosedWhenFilled`).
- BACKTESTING.md calls the instant model's pnl strictly negative and -(spread) x fills. It also pays markup, slippage
  and commission, and it is zero when all of these and the spread are (`ReplayExamples.FreeRoundTrip`); whole replays
  lose money exactly when some cost is positive or nothing is ever filled (`ReplayExamples.InstantLosesIff`).
- A signal stamped 0 starts no cooldown; `ReplaySpacing.SpacingExact` says for which configurations that shows.
- With a threshold of 0 or less, pruning changes what the momentum generator signals.

## Model

| member | source | states |
|---|---|---|
| FixMessage.ScanTag | latency_arb/src/fix_executor.cpp:494-509 | the scanning loop answers what its field-by-field definition answers, on any bytes |
| FixMessage.ScanInvertsPrint | latency_arb/src/fix_executor.cpp:72-74 | on the printed bytes of any list of SOH-free fields (values may hold `=`), scanning a tag gives the first field with that tag, or empty |
| FixMessage.FieldRoundTrip | latency_arb/src/fix_executor.cpp:494-509 | one printed field is read back, whatever follows it, if and only if its value holds no SOH |
| FixBytes.ScanNext | latency_arb/src/fix_executor.cpp:494-509 | on any bytes: a field that ends in SOH answers its value exactly when the bytes before its first = are digits that read as the tag, and is skipped otherwise |
| FixBytes.ScanLast | latency_arb/src/fix_executor.cpp:503-506 | on any bytes: a last field without SOH is read up to the end, or nothing is found |
| FixBytes.ScanNone | latency_arb/src/fix_executor.cpp:497-498 | where no = is left nothing is found |
| FixMessage.CheckSum | latency_arb/src/fix_executor.cpp:524-528 | the loop with its 32-bit accumulator yields the three-digit byte sum mod 256 |
| FixMessage.MessageIsFields | latency_arb/src/fix_executor.cpp:514-530 | a built message is exactly its fields: 8, 9, header, body, 10 |
| FixMessage.ScanMessage | latency_arb/src/fix_executor.cpp:514-530 | every tag of a message built from SOH-free values scans to the first field of the message with that tag |
| FixMessage.ScanHeader | latency_arb/src/fix_executor.cpp:515-520 | MsgType and MsgSeqNum scan back whatever bytes the time stamp and the body hold |
| FixMessage.ScanNames | latency_arb/src/fix_executor.cpp:517-518 | tag 49 scans to the configured sender and tag 56 to the target, for SOH-free names and any stamp and body |
| FixMessage.ScanSendingTime | latency_arb/src/fix_executor.cpp:520 | tag 52 scans to the time stamp, if that holds no SOH |
| FixMessage.BodyReadsBack | latency_arb/src/fix_executor.cpp:514-530 | the first body field with its tag scans back, whatever bytes follow it |
| FixMessage.ScanClOrdId | latency_arb/src/fix_executor.cpp:562-564 | a NewOrderSingle gives its ClOrdID back whatever its instrument and level texts are |
| FixMessage.OrderReadsBack | latency_arb/src/fix_executor.cpp:562-570 | ClOrdID, account, symbol, side, quantity, OrdType 1, TimeInForce 3 and TransactTime of a NewOrderSingle scan back to the job they came from |
| FixMessage.StopReadsBack | latency_arb/src/fix_executor.cpp:573 | tag 99 is present exactly when the stop level is positive |
| FixMessage.TakeReadsBack | latency_arb/src/fix_executor.cpp:574 | tag 100 is present exactly when the take-profit level is positive |
| FixMessage.HeartbeatReadsBack | latency_arb/src/fix_executor.cpp:553-557 | a heartbeat echoes the TestReqID it answers and carries none otherwise |
| FixMessage.LogonReadsBack | latency_arb/src/fix_executor.cpp:532-544 | EncryptMethod is 0, HeartBtInt the configured interval or 30, ResetSeqNumFlag Y, and the credentials scan back |
| FixBytes.MessageOnWire | latency_arb/src/fix_executor.cpp:514-530 | the bytes of any message, in texts: 8=FIX.4.4, 9, 35, 49 sender, 56 target, 34, 52, body, 10; the length counts header and body, the sum is over all bytes before tag 10 |
| FixBytes.ByteSumAdds | latency_arb/src/fix_executor.cpp:524-525 | that sum is additive, and each byte adds its own value |
| FixBytes.OrderOnWire | latency_arb/src/fix_executor.cpp:562-575 | the bytes of the 35=D body, levels only when set |
| FixBytes.LogonOnWire | latency_arb/src/fix_executor.cpp:532-544 | the bytes of the 35=A body |
| FixBytes.HeartbeatOnWire | latency_arb/src/fix_executor.cpp:553-557 | the bytes of the 35=0 body |
| FixBytes.ResendOnWire | latency_arb/src/fix_executor.cpp:578-583 | the bytes of the 35=3 body: from the given number on, without end |
| FixSplitter.SplitAppend | latency_arb/src/fix_executor.cpp:343-373 | splitting x then y behind the residue equals splitting x + y: same frames, same residue, arbitrary bytes |
| FixSplitter.ChunkConfluence | latency_arb/src/fix_executor.cpp:324-335 | any cutting of the stream into reads delivers the same frames and leaves the same buffer as one pass |
| FixSplitter.FramesAreCarved | latency_arb/src/fix_executor.cpp:343-373 | delivered frames are disjoint stretches of the input in order, and the residue is a stretch at its end |
| FixSplitter.FramesAreComplete | latency_arb/src/fix_executor.cpp:354-370 | each delivered frame, split on its own, is exactly one frame with nothing left over |
| FixSplitter.NextSealed | latency_arb/src/fix_executor.cpp:343-370 | a built message in front of any bytes comes off whole when its BodyLength is at most 2^20, and loses its first byte otherwise |
| FixSplitter.FromHeader | latency_arb/src/fix_executor.cpp:346-352 | whatever stands before the first "8=FIX.4.4" and SOH is dropped |
| FixSplitter.NoHeader | latency_arb/src/fix_executor.cpp:346-351 | bytes without one give no frame, and at most their last 16 are kept |
| FixSplitter.FrameByLength | latency_arb/src/fix_executor.cpp:354-368 | behind a header, the text between the first "9=" and the next SOH decides on any bytes: no number, or over 2^20, costs one byte; otherwise the frame ends that many bytes and 7 later, or is waited for |
| FixSplitter.LengthAwaited | latency_arb/src/fix_executor.cpp:355-358 | without such a text everything from the header on is kept |
| FixSplitter.MessagesDelivered | latency_arb/src/fix_executor.cpp:343-373 | concatenated messages come back exactly, with an empty residue, if and only if every BodyLength is within the cap |
| FixSplitter.PrinterSplitterInverse | latency_arb/src/fix_executor.cpp:514-530 | the same under every chunking of the stream |
| FixSplitter.ResyncRecovers | latency_arb/src/fix_executor.cpp:345-352 | behind any bytes after which a header would be found and kept, messages come back exactly as printed, behind whatever frames those bytes held, under every chunking, if and only if every BodyLength is within the cap |
| FixSplitter.HeaderWaits | latency_arb/src/fix_executor.cpp:345-352 | bytes that neither hold a header nor begin one that the next message completes are such bytes, and hold no frame |
| FixSplitter.HeaderWaitsAfterResync | latency_arb/src/fix_executor.cpp:359-361 | so are bytes that start with a header whose BodyLength is unusable and are of that kind from their second byte on |
| FixSplitter.BodyLengthCounts | latency_arb/src/fix_executor.cpp:521-523 | FIX 4.4 Volume 2, Data Integrity: tag 9 counts the bytes from after its own field to the CheckSum field |
| FixSplitter.CheckSumTotals | latency_arb/src/fix_executor.cpp:524-528 | the trailer is the last 7 bytes and holds the sum of all bytes before it mod 256 |
| FixOrders.ClOrdIdInjective | latency_arb/src/fix_executor.cpp:166-167 | distinct order numbers have distinct ClOrdIDs |
| FixOrders.AcceptInv | latency_arb/src/fix_executor.cpp:155-177 | accepting or dropping a request keeps the order-book invariant |
| FixOrders.MailboxFills | latency_arb/src/fix_executor.cpp:155-177 | after any requests the mailbox holds, in order, the first `limit` of those with an instrument, side buy or sell and a positive volume, each field by field, numbered by its place among them; numbering goes on past the limit |
| FixOrders.ParkInv | latency_arb/src/fix_executor.cpp:291-299 | parking drained jobs back in front, behind which new ones may have queued, keeps FIFO order and loses nothing |
| FixOrders.RegisterInv | latency_arb/src/fix_executor.cpp:300-309 | entering a job in the table never overwrites another order |
| FixOrders.ReportInv | latency_arb/src/fix_executor.cpp:437-470 | no report, forged or repeated, breaks the invariant |
| FixOrders.Partition | latency_arb/src/fix_executor.cpp:284-310 | under the invariant each accepted order is in exactly one of mailbox, pending table, reported |
| FixOrders.ReportEndsOrder | latency_arb/src/fix_executor.cpp:454-469 | a report on a pending order ends it, with one callback, exactly for ExecType 0, 1, 2, 3, 4, 8 or OrdStatus 8; the callback's ok flag is decided |
| FixOrders.ReportReads | latency_arb/src/fix_executor.cpp:454-469 | the whole outcome table: status, ok flag, text (only of a rejection), order number and OrderID of the one callback, by ExecType and OrdStatus; any other report changes nothing |
| FixOrders.ReportIgnored | latency_arb/src/fix_executor.cpp:438-441 | a report without ClOrdID, or on an order that is not pending, changes nothing |
| FixOutbox.WriteInv | latency_arb/src/fix_executor.cpp:259-282 | building and queueing a frame keeps the outbox invariant: writes end in the order they started, at most one is outstanding and it is the queue front, nothing is lost, MsgSeqNum 1, 2, 3, ..., over all sessions a Logon has number 1 and any other frame the number after that of the frame before it |
| FixOutbox.OpenInv | latency_arb/src/fix_executor.cpp:195-199 | a new session starts its numbering with its Logon and inherits exactly the unwritten frames |
| FixOutbox.CompleteInv | latency_arb/src/fix_executor.cpp:271-281 | a finished write, failed or not, takes off exactly the frame whose write ended, the last one started, even when an earlier session started it |
| FixOutbox.StartedOnce | latency_arb/src/fix_executor.cpp:265-282 | every queued frame is handed to a write at most once, over all streams, in queue order, and at most one write has not ended |
| FixOutbox.WireIsPrefix | latency_arb/src/fix_executor.cpp:259-282 | what a session's stream has been given is a prefix of the inherited frames followed by the session's own |
| FixOutbox.StretchNumbering | latency_arb/src/fix_executor.cpp:195-200 | any stretch of the frames queued over all sessions is numbered 1, 2, 3, ... if and only if its first frame is a Logon and no later one is |
| FixOutbox.WireNumbering | latency_arb/src/fix_executor.cpp:195-200 | what the peer sees is numbered 1, 2, 3, ... exactly when, with the own Logon on the wire, nothing was inherited, or, before that, the inherited frames sent so far are none, or open with a Logon and hold no other |
| FixSession.DrainAllIsRun | latency_arb/src/fix_executor.cpp:284-310 | a drain is a run of its turns, so whatever holds over runs holds through drains |
| FixSession.StepInv | latency_arb/src/fix_executor.cpp:155-470 | every step of either thread keeps the whole session invariant |
| FixSession.RunInv | latency_arb/src/fix_executor.cpp:155-470 | so does every run from any state that has it |
| FixSession.OrderPartition | latency_arb/src/fix_executor.cpp:155-310 | in every reachable state, for any comp ids, each accepted order is waiting, pending or reported, exactly one of the three |
| FixSession.ReportedOnce | latency_arb/src/fix_executor.cpp:437-470 | in every reachable state, for any comp ids, no order is called back twice, none before it was drained, and orders are drained first in first out |
| FixSession.OutputDiscipline | latency_arb/src/fix_executor.cpp:259-282 | in every reachable state: frames handed to a write over all sessions = frames whose write ended, plus the queue front while a write is out; no frame is handed over twice; ended frames and queue together are all frames queued; the session's frames are numbered 1, 2, 3, ... from its Logon |
| FixSession.PeerNumbering | latency_arb/src/fix_executor.cpp:182-207 | in every reachable state: once the session's own Logon is on the wire the peer sees 1, 2, 3, ... if and only if the earlier session left nothing unwritten; before that, if and only if the left-over frames sent so far are none, or open with a Logon and hold no other |
| FixSession.LeftOverOrder | latency_arb/src/fix_executor.cpp:195-200 | a run in which session two opens with session one's order, MsgSeqNum 2, ahead of its own Logon |
| FixSession.GapAnswered | latency_arb/src/fix_executor.cpp:403-418 | inbound numbers never lower the count; a gap and only a gap queues one 35=3, which asks from the received number on |
| FixSession.ReadsJoin | latency_arb/src/fix_executor.cpp:324-335 | two reads at the same time stamp leave the whole session where one read of the joined bytes at that stamp leaves it |
| FixSession.ReadAllJoins | latency_arb/src/fix_executor.cpp:324-335 | the same for any number of reads at one time stamp |
| FixAnswers.Waits | latency_arb/src/fix_executor.cpp:284-310 | the session thread runs one handler at a time: between the two critical sections of a drain only requests come in, and a step whose condition does not hold changes nothing |
| FixAnswers.RequestTaken | latency_arb/src/fix_executor.cpp:155-177 | in any state, draining or not: a request with instrument, side and positive volume uses up a number, and is queued last, field by field, unless the mailbox is full |
| FixAnswers.OrdersAreRequests | latency_arb/src/fix_executor.cpp:155-177 | over any run every accepted order is, field by field, the sound request whose place among the sound requests of the run is its number |
| FixSession.OrdersSentOnce | latency_arb/src/fix_executor.cpp:300-309 | over any run the 35=D frames queued are the drained orders, once each, in acceptance order, each the message of its job under the session names with some number and stamp |
| FixAnswers.ReportEndToEnd | latency_arb/src/fix_executor.cpp:437-470 | a printed ExecutionReport on a pending order, cut into any reads, closes it and calls back once, with the order number, the ClOrdID, the OrderID, the status and flag its codes say, and the text of a rejection |
| FixAnswers.ReadsAreSteps | latency_arb/src/fix_executor.cpp:324-335 | reads of a session that is up and not draining are that many steps of the machine |
| FixAnswers.SessionOpens | latency_arb/src/fix_executor.cpp:195-199 | the session begins with its Logon, number 1, behind whatever is queued; inbound count, buffer and orders are kept |
| FixAnswers.TestRequestAnswered | latency_arb/src/fix_executor.cpp:472-475 | a 35=1, and no other frame, is answered by dispatch: with one 35=0 under the next number that carries the TestReqID of the request |
| FixAnswers.NumberTracked | latency_arb/src/fix_executor.cpp:403-418 | the inbound count becomes the received number when that is higher, also from 0; a gap after a known number, and nothing else, queues one 35=3 that asks from the received number on |
| FixAnswers.FrameEffects | latency_arb/src/fix_executor.cpp:420-431 | the rest of dispatch: 35=8 goes to the desk, 35=4 clears the count, nothing else changes anything |
| FixAnswers.IdleHeartbeat | latency_arb/src/fix_executor.cpp:385-395 | a due heartbeat of a connected session carries no TestReqID; a session that is not connected sends none |
| FixAnswers.WholeDrain | latency_arb/src/fix_executor.cpp:284-310 | a connected session drains its whole mailbox in order, one message and one number a job; a disconnected one is left exactly as it was |
| FixAnswers.NeverStalls | latency_arb/src/fix_executor.cpp:265-282 | in every reachable state a connected session with queued frames is writing one |
| FixAnswers.GoodWrite | latency_arb/src/fix_executor.cpp:271-281 | a write that ends well takes its frame off and starts the next one, if any |
| FixAnswers.FailedWrite | latency_arb/src/fix_executor.cpp:271-281 | a failed one takes its frame off, drops the link and starts nothing |
| FixAnswers.SilentWhenDown | latency_arb/src/fix_executor.cpp:200-204 | after a session has ended no write is started until the next begins, in any run |
| FixExecutor.PrintAll | latency_arb/src/fix_executor.cpp:72-79 | appending field after field prints the field list |
| FixExecutor.FixExecutor.constructor | latency_arb/src/fix_executor.cpp:110-115 | starts in the initial state of the state machine |
| FixExecutor.FixExecutor.Execute | latency_arb/src/fix_executor.cpp:155-177 | does the Execute step: validation, numbering before the back-pressure drop, mailbox |
| FixExecutor.FixExecutor.BuildMsg | latency_arb/src/fix_executor.cpp:514-530 | returns the specified message and advances seq_out_ only |
| FixExecutor.FixExecutor.PumpWrite | latency_arb/src/fix_executor.cpp:265-282 | starts a write only when none is out, a stream exists and a frame waits |
| FixExecutor.FixExecutor.IoWrite | latency_arb/src/fix_executor.cpp:259-263 | queues one frame at the back and pumps |
| FixExecutor.FixExecutor.OnWriteDone | latency_arb/src/fix_executor.cpp:271-281 | does the WriteDone step |
| FixExecutor.FixExecutor.BeginSession | latency_arb/src/fix_executor.cpp:195-199 | does the Begin step, wqueue_ and inbound_ kept |
| FixExecutor.FixExecutor.EndSession | latency_arb/src/fix_executor.cpp:200-204 | does the End step |
| FixExecutor.FixExecutor.OnHeartbeatTimer | latency_arb/src/fix_executor.cpp:385-395 | does the HeartbeatDue step |
| FixExecutor.FixExecutor.ParkBack | latency_arb/src/fix_executor.cpp:291-299 | the push-front loop is one turn of an offline drain |
| FixExecutor.FixExecutor.SendFront | latency_arb/src/fix_executor.cpp:300-309 | registers and sends the front job |
| FixExecutor.FixExecutor.IoDrainOrders | latency_arb/src/fix_executor.cpp:284-310 | swap and loop together are the whole drain |
| FixExecutor.FixExecutor.SplitTurn | latency_arb/src/fix_executor.cpp:343-368 | one turn of the loop takes the specified turn on the buffer |
| FixExecutor.FixExecutor.ProcessInbound | latency_arb/src/fix_executor.cpp:343-373 | the loop handles exactly the split frames in order and leaves exactly the residue |
| FixExecutor.FixExecutor.OnRead | latency_arb/src/fix_executor.cpp:324-335 | does the Received step |
| FixExecutor.FixExecutor.HandleFrame | latency_arb/src/fix_executor.cpp:403-431 | does the specified handling and leaves the buffer alone |
| FixExecutor.FixExecutor.TrackInbound | latency_arb/src/fix_executor.cpp:406-418 | does the sequence bookkeeping |
| FixExecutor.FixExecutor.OnExecutionReport | latency_arb/src/fix_executor.cpp:437-470 | does the specified report handling |
| SpscRing.LappingLaw | latency_arb/include/llm/ring.h:38-67 | after any mix of pushes and pops the ring holds, in order, exactly the last (pushes - pops) mod Capacity items pushed |
| SpscRing.PushesOnly | latency_arb/tests/test_main.cpp:206-232 | with pushes alone `pushed % Capacity` items survive |
| SpscRing.SpscRing.Push | latency_arb/include/llm/ring.h:38-46 | contents gain the item, or become empty; the answer is false exactly then, at Capacity - 1 items |
| SpscRing.SpscRing.Pop | latency_arb/include/llm/ring.h:49-55 | answers and removes the oldest item, false exactly when empty |
| SpscRing.SpscRing.Size | latency_arb/include/llm/ring.h:63-67 | the masked difference of the indices is the number of items |
| RingInterleaving.SpscSafety | latency_arb/include/llm/ring.h:38-55 | pushes starting at occupancy at most Capacity - 2: under every interleaving popped is a prefix of pushed, the slot read is never the slot written, no push laps, no pop misses |
| RingInterleaving.FaithfulToTheBrim | latency_arb/include/llm/ring.h:38-55 | prefix and slot separation still hold with pushes starting at Capacity - 1 |
| RingInterleaving.NeverMissedIff | latency_arb/include/llm/ring.h:38-55 | no interleaving lets a pop overlook a value if and only if pushes start at Capacity - 2 or less; the same for a push that answers false |
| RingInterleaving.FaithfulIff | latency_arb/include/llm/ring.h:38-55 | popped is a prefix of pushed in every interleaving if and only if pushes start at Capacity - 1 or less, or Capacity is 1 |
| RingInterleaving.MissedWhenFull | latency_arb/include/llm/ring.h:38-51 | Capacity pushes make the ring read as empty |
| RingInterleaving.LappedWhenFull | latency_arb/include/llm/ring.h:38-46 | of pushes one after the other the Capacity-th is the first to answer false |
| RingInterleaving.OverwrittenWhenOver | latency_arb/include/llm/ring.h:38-54 | one push more and the oldest value is replaced unread |
| WireCodec.EncodeSignal | latency_arb/src/wire.cpp:10-20 | returns the length, or -1 exactly when text and NUL do not fit; the buffer holds the text, or its front with a NUL, and nothing beyond is touched |
| WireCodec.CopyField | latency_arb/src/wire.cpp:53-64 | the bounded copy loop stops at a comma, the end, or its buffer's size |
| WireCodec.DecodeSignal | latency_arb/src/wire.cpp:22-90 | the cursor parser answers what cutting and reading the fields answers, on any bytes |
| WireCodec.FixedRoundTrip | latency_arb/src/wire.cpp:61-70 | a number printed with six decimals is read back exactly |
| WireCodec.WireRoundTrip | latency_arb/src/wire.cpp:10-90 | a signal survives encode and decode unchanged if and only if its side is Buy or Sell, its lead is positive, its reason is comma-free, NUL-free and at most 23 bytes, and its five number texts are at most 47 bytes |
| WireCodec.NumberFits | latency_arb/src/wire.cpp:62-65 | a number's text fits if and only if its magnitude is below 10^40, or 10^39 when negative |
| WireCodec.Truncation | latency_arb/src/wire.cpp:49-89 | a prefix of a sendable frame is rejected exactly when it lacks the seventh comma |
| WireCodec.TruncatedStamp | latency_arb/src/wire.cpp:78-85 | with the seventh comma it decodes, the time stamp read off what is left of its digits |
| WireText.TextOnWire | latency_arb/src/wire.cpp:12-17 | the bytes of a frame: topic, bar, BUY or SELL, reason, the five numbers in order, time stamp |
| WireText.FixedShape | latency_arb/src/wire.cpp:14 | "%.6f": sign, digits without leading zero, point, six digits; they denote the millionths |
| WireText.IntShape | latency_arb/src/wire.cpp:14 | "%lld": sign and digits without leading zero |
| WireText.IntTaken | latency_arb/src/wire.cpp:84 | the integer reader takes blanks, a sign and digits off any text and ignores the rest |
| WireText.RealTaken | latency_arb/src/wire.cpp:68 | the decimal reader takes blanks, a sign, digits, a point and digits, each possibly none behind the sign |
| WireText.WholeTaken | latency_arb/src/wire.cpp:68 | without a point it takes a whole number |
| WireText.SendableIs | latency_arb/src/wire.cpp:52-76 | which signals come back, in their own fields: side, positive lead, reason of at most 23 bytes without comma and NUL, numbers from above -10^39 to below 10^40 |
| WireText.StampRead | latency_arb/src/wire.cpp:78-85 | the time stamp is read off the last field up to a comma, the end or 31 bytes |
| WireText.TopicOptional | latency_arb/src/wire.cpp:30-35 | a frame from its side on decodes alike bare, behind the bar, behind the topic, and behind both, on any bytes |
| WireText.NoSideRefused | latency_arb/src/wire.cpp:37-48 | bytes that hold neither BUY nor SELL are refused |
| Rounding.Round4Near | latency_arb/src/aggregator.cpp:74-76 | rounding to four decimals moves a value by at most 0.00005 |
| Rounding.Round4Nearest | latency_arb/src/aggregator.cpp:74-76 | the result is the nearest whole number of 0.0001, halves away from zero |
| Aggregator.FreshNeverLost | latency_arb/src/aggregator.cpp:13-32 | with a forward clock and any time stamps the window and the whole history have the same fresh ticks |
| Aggregator.WindowIsFresh | latency_arb/src/aggregator.cpp:13-32 | with dated ticks the window is exactly the valid ticks popped so far that are at most 50 ms old |
| Aggregator.WeightsSum | latency_arb/src/aggregator.cpp:94-105 | normalised weights are nonnegative and sum to 1 |
| Aggregator.LeadInHull | latency_arb/src/aggregator.cpp:52-57 | the lead lies between the two latest mids, up to 0.00005 when rounding is on |
| Aggregator.LeadIsMean | latency_arb/src/aggregator.cpp:52-57 | with both venues quoted: lead x (deribit weight + binance weight) = deribit mid x its weight + binance mid x its weight, weights of the session; with rounding the nearest whole number of 0.0001 |
| Aggregator.QuotedIs | latency_arb/src/aggregator.cpp:34-37 | what a venue quotes, in tick fields: half the sum of bid and ask of its newest valid tick that is at most 50 ms old, the last price where a side is missing, 0 if there is no such tick |
| Aggregator.LeadFromHistory | latency_arb/src/aggregator.cpp:39-72 | from the poll history alone, in tick fields: when there is no price, when one venue's price is passed on, and otherwise the mean with the weights of the session, rounded when configured, within both prices |
| Aggregator.VenueWindow.Ingest | latency_arb/src/aggregator.cpp:13-24 | drains the ring and turns the window into the specified one |
| Aggregator.VenueWindow.Drain | latency_arb/src/aggregator.cpp:15-22 | the pop loop appends the ring's fresh valid ticks in order and empties it |
| Aggregator.VenueWindow.PruneOld | latency_arb/src/aggregator.cpp:26-32 | drops stale ticks from the front only |
| Aggregator.Aggregator.Update | latency_arb/src/aggregator.cpp:39-72 | answers the specified price of the two windows after polling both rings |
| Momentum.PruningUnobservable | lead_lag.cpp:440-464 | over every feed the pruned generator signals like one that keeps everything, if and only if the threshold is positive |
| Momentum.GapTellsApart | lead_lag.cpp:444-458 | the feed that tells them apart otherwise: a tick, a silence longer than window + 1 s, a tick |
| Momentum.RefAlwaysFound | lead_lag.cpp:467-471 | the fallback of ref_price_at is unreachable |
| Momentum.CooldownKept | lead_lag.cpp:457-477 | any two signals of a run are at least cooldown_seconds apart |
| Momentum.SignalExactly | lead_lag.cpp:440-464 | over any feed, tick i is answered with a signal if and only if it is not the first, the tick before is at most window + 1 s older, every earlier signal is a cooldown old, and the price is off the reference by the threshold in per cent; it buys exactly when the price is above, and tells reference and change; the reference is the first tick of the whole feed inside the window |
| Momentum.RefPriceIs | lead_lag.cpp:467-471 | for any window, below zero too: the reference is the first tick of the buffer inside it, or the oldest if there is none |
| Momentum.SignalGenerator.RefPriceAt | lead_lag.cpp:467-471 | the loop finds the first tick at or after the cutoff |
| Momentum.SignalGenerator.Update | lead_lag.cpp:440-464 | pushes, prunes, decides and stamps as specified |
| Strategy.ThresholdCovers | latency_arb/src/strategy.cpp:20-28 | the threshold is the larger of the fixed floor and the spread, published or derived from the quote, plus both buffers |
| Strategy.TriggersExclusive | latency_arb/src/strategy.cpp:30-47 | on an uncrossed quote with no negative threshold each decision is an if-and-only-if, so the order of the tests does not matter |
| Strategy.EdgePositive | latency_arb/src/strategy.cpp:96-98 | an emitted signal's edge is positive |
| Strategy.SignalDescribes | latency_arb/src/strategy.cpp:88-104 | every field of an emitted signal against lead, quote, threshold and decision |
| Strategy.GatesAre | latency_arb/src/strategy.cpp:54-59 | the gates in plain arithmetic, the truncating division of the interval resolved |
| Strategy.Strategy.CanTradeNow | latency_arb/src/strategy.cpp:54-59 | the early returns amount to the three gates, in plain arithmetic |
| Strategy.Strategy.OnOrderPlaced | latency_arb/src/strategy.cpp:63-67 | counts a lot and an order; the interval start is left at 0 |
| Strategy.Strategy.OnOrderClosed | latency_arb/src/strategy.cpp:69-73 | books the pnl less the commission and returns a lot |
| Strategy.Strategy.MaybeEmit | latency_arb/src/strategy.cpp:75-105 | emits exactly when a decision of either side, the gates and the cooldown allow, stamps the time only then, and fills in every field of the signal |
| ExecutionSimulator.ExecutionSimulator.Submit | latency_arb/src/backtest/execution_simulator.cpp:10-24 | takes one order at a time, with a valid side and an uncrossed positive quote, due after the delay |
| ExecutionSimulator.ExecutionSimulator.AtFill | latency_arb/src/backtest/execution_simulator.cpp:26-82 | resolves the order once due, by spread cap, slippage cap and price in this order, a fill at the price of its side with commission per lot x lots; the slot is free again in every case |
| Replay.MergeVisitsAll | latency_arb/src/backtest/backtest_engine.cpp:192-204 | every tick of both streams is visited once, each stream in its own order |
| Replay.MergeOrdered | latency_arb/src/backtest/backtest_engine.cpp:192-204 | on sorted streams ticks are visited in nondecreasing time, lead before lag on ties |
| Replay.NoLookAhead | latency_arb/src/backtest/backtest_engine.cpp:192-240 | streams that agree on all ticks up to T give the same state once those ticks are consumed |
| Replay.WaitsUntilDue | latency_arb/src/backtest/backtest_engine.cpp:153-157 | until a valid lag tick reaches the due time the order stays in flight and no other is placed |
| ReplayLedger.LedgerAlways | latency_arb/src/backtest/backtest_engine.cpp:109-249 | after every prefix: signals = fills + rejections + overwritten + in flight, open lots = in flight + rejections + overwritten, limits kept |
| ReplayLedger.SignalConservation | latency_arb/src/backtest/backtest_engine.cpp:241-249 | on return nothing is in flight, trades = fills, signals = fills + rejections + overwritten, and no overwritten unless the model holds positions, lots and orders may reach 2, losses are allowed and slippage is within its cap |
| ReplayLedger.LeaksBounded | latency_arb/src/backtest/backtest_engine.cpp:184-186 | rejections and overwrites together never exceed the lot limit, in the loop and after the end-of-stream drain |
| ReplayLedger.NoSignalAfterLeaks | latency_arb/src/backtest/backtest_engine.cpp:184-186 | once they reach it the strategy never signals again |
| ReplayLedger.OrderCap | latency_arb/src/strategy.cpp:57-66 | signals never exceed max_orders_per_interval over a whole replay |
| ReplaySignal.SignalExactly | latency_arb/src/backtest/backtest_engine.cpp:215-235 | after any prefix, a valid lag tick places an order if and only if, once fill and exit are settled on it, lead and quote are positive and uncrossed, lead > ask + threshold or bid > lead + threshold, a lot and an order are free, the loss is under its limit, the last stamp is 0 or an interval old, and nothing is in flight; a buy in the first case, a sell in the second, at this quote, due after the delay |
| ReplaySignal.RejectedExactly | latency_arb/src/backtest/backtest_engine.cpp:153-162 | a valid lag tick rejects an order if and only if one is due and spread, slippage or price forbids its fill |
| ReplaySignal.ReplayCounts | latency_arb/src/backtest/backtest_engine.cpp:197-205 | a replay counts the valid ticks of each stream, each once |
| ReplayExact.ConservationExact | latency_arb/src/backtest/backtest_engine.cpp:95-103 | signals = fills + rejections on every sorted pair of streams if and only if: instant model, or max_open_lots <= 1, or max_orders_per_interval <= 1, or max_daily_loss <= 0, or slippage over its cap |
| ReplayExact.SoundConservationExact | latency_arb/src/backtest/backtest_engine.cpp:95-103 | the same over streams with positive uncrossed quotes, where a negative spread cap is one more such case |
| ReplayExact.LevelRun | latency_arb/src/backtest/backtest_engine.cpp:153-162 | for every other configuration with a nonnegative spread cap, four ticks on level quotes that overwrite a held position |
| ReplayExact.CrossedRun | latency_arb/src/backtest/backtest_engine.cpp:153-162 | for every other configuration at all, five ticks that overwrite a held position |
| ReplayAccount.RealiseSound | latency_arb/src/backtest/backtest_engine.cpp:83-92 | one booked trade keeps all the accumulators equal to what they stand for |
| ReplayAccount.AccountsRefine | latency_arb/src/backtest/backtest_engine.cpp:83-92 | after any run: each equity_after is capital plus prefix sum, peak is the maximum, gross figures are the signed sums, max_drawdown is the maximum of E_i - E_j over i <= j, attained, its percentage taken where it was first attained |
| ReplayAccount.ReplaySound | latency_arb/src/backtest/backtest_engine.cpp:241-255 | the same for the finished replay |
| ReplayAccount.TotalIsNet | latency_arb/src/backtest/backtest_engine.cpp:251-254 | total pnl = sum of pnl = gross profit - gross loss, both nonnegative |
| ReplayAccount.DrawdownUnique | latency_arb/src/backtest/backtest_engine.cpp:87-91 | the drawdown those conditions describe is nonnegative and the only one |
| ReplayAccount.PercentIs | latency_arb/src/backtest/backtest_engine.cpp:90-91 | the published percentage x peak = drawdown x 100, and 0 at no positive peak |
| ReplayRisk.LossStop | latency_arb/src/strategy.cpp:54-59 | every configuration that cannot overwrite, ticks in any order, nonnegative commission: equity just before every trade exceeds capital - max_daily_loss, so the final equity is below that line by at most the last trade's loss |
| ReplayStop.LossStopExact | latency_arb/src/strategy.cpp:54-59 | nonnegative commission: equity just before every trade exceeds capital - max_daily_loss on every sorted pair of streams if and only if: the configuration cannot overwrite, or delay_ms <= 0, or positions never converge (negative tolerance) and either never expire or delay_ms <= 1 |
| ReplayStop.SinkingRun | latency_arb/src/strategy.cpp:54-59 | for every other configuration, one lead and five lag ticks: the first position is closed below the line while a second order is in flight, which then trades |
| ReplayRisk.DayPnlIsNetOfFees | latency_arb/src/backtest/backtest_engine.cpp:142-148 | after every prefix of a run day_pnl_ is the pnl of the trades less one further commission for each |
| ReplayRisk.FinalDayPnl | latency_arb/src/backtest/backtest_engine.cpp:241-249 | the same when the replay has ended, drain and forced close included |
| ReplayRisk.SignalsSpaced | latency_arb/src/strategy.cpp:82-85 | two signals of a replay are at least interval_seconds apart, whatever happens between them, unless the first is at time 0 |
| ReplaySpacing.SpacingExact | latency_arb/src/strategy.cpp:82-85 | two signals are at least interval_seconds apart on every sorted pair of streams, stamps of 0 included, if and only if: no order or only one can go out, or interval_seconds <= 0, or delay_ms reaches the interval, or there is one lot and it cannot be back within the interval (slippage over its cap, or a held position that neither converges nor expires in time) |
| ReplaySpacing.Rushes | latency_arb/src/strategy.cpp:82-85 | for every other configuration, streams with a signal at time 0 and a second one within the interval |
| ReplayLife.TradeAttribution | latency_arb/src/backtest/backtest_engine.cpp:109-187 | every trade: signalled by its rule on a valid lag tick, with that tick's quote and, as mark, half the sum of bid and ask of the last valid lead tick by then; filled at the quote of the first later valid lag tick at or after signal + delay, within both caps, at commission per lot x lots; closed at the quote of the first valid lag tick from its fill on that meets the exit test, on the half-sum of the lead then; or, with no such tick, filled by the drain or force-closed at the last quote; pnl as its model says |
| ReplayLife.ThroughLocated | latency_arb/src/backtest/backtest_engine.cpp:192-240 | the invariant behind it: order in flight, held position and trades of every state have their events |
| ReplayEdge.LongBound | latency_arb/src/backtest/backtest_engine.cpp:118-130 | a long closed by convergence: pnl > threshold at signal - hold_tol - half the exit spread - all costs + (lead rise) - (ask rise) |
| ReplayEdge.ShortBound | latency_arb/src/backtest/backtest_engine.cpp:118-130 | the mirror bound for shorts |
| ReplayEdge.ConvergenceBound | latency_arb/src/backtest/backtest_engine.cpp:109-150 | the bound for every converged trade of every replay; 0.0001 weaker when rounding is on |
| ReplayEdge.ClosedOnItsFillTick | latency_arb/src/backtest/backtest_engine.cpp:209-213 | from any state, a fill that becomes the held position is closed on its own tick exactly when that tick's mid has converged |
| ReplayInstant.InstantNeverProfits | latency_arb/src/backtest/backtest_engine.cpp:163-183 | instant model, uncrossed quotes, no negative cost: each pnl is -(spread + markup + slippage + commission), gross profit 0, equity never rises, max_drawdown = capital - final equity, no loss only if every trade was free |
| ReplayExamples.ClosedWhenFilled | latency_arb/src/backtest/backtest_engine.cpp:208-213 | for every configuration that can fill and hold, with nonnegative spread cap and tolerance, sound streams of two ticks each after which the one trade closed at its own fill time |
| ReplayExamples.FreeRoundTrip | latency_arb/src/backtest/backtest_engine.cpp:163-183 | for every instant configuration without costs that can fill, sound streams of one lead and two lag ticks after which the one trade has pnl 0 |
| ReplayExamples.InstantLosesIff | latency_arb/src/backtest/backtest_engine.cpp:163-183 | instant model, nonnegative costs: every replay of sound streams that trades ends below its capital if and only if markup + slippage + commission > 0, or the configuration fills no order |
| BacktestEngine.Run.constructor | latency_arb/src/backtest/backtest_engine.cpp:68-81 | starts in the initial state |
| BacktestEngine.Run.Credit | latency_arb/src/backtest/backtest_engine.cpp:142-143 | adds the pnl to equity and to one gross figure |
| BacktestEngine.Run.RecordTrade | latency_arb/src/backtest/backtest_engine.cpp:83-92 | appends the trade and updates peak and drawdown by maxima |
| BacktestEngine.Run.BookTrade | latency_arb/src/backtest/backtest_engine.cpp:142-148 | a trade is booked and its lot returned |
| BacktestEngine.Run.OpenPosition | latency_arb/src/backtest/backtest_engine.cpp:95-103 | the fill becomes the held position |
| BacktestEngine.Run.HandleDueFill | latency_arb/src/backtest/backtest_engine.cpp:153-187 | does the specified fill handling under both models |
| BacktestEngine.Run.CloseHeld | latency_arb/src/backtest/backtest_engine.cpp:109-150 | closes on force, expiry or convergence as specified |
| BacktestEngine.Run.EvaluateQuote | latency_arb/src/backtest/backtest_engine.cpp:215-235 | evaluation, emission and submission |
| BacktestEngine.Run.TakeLead | latency_arb/src/backtest/backtest_engine.cpp:197-200 | a valid lead tick sets the lead mid |
| BacktestEngine.Run.TakeLag | latency_arb/src/backtest/backtest_engine.cpp:202-238 | a valid lag tick: fill, close, evaluate, remember |
| BacktestEngine.Run.Drain | latency_arb/src/backtest/backtest_engine.cpp:241-249 | the end-of-stream drain and force-close |
| BacktestEngine.Run.Consume | latency_arb/src/backtest/backtest_engine.cpp:192-240 | the two-index loop is the run over the merged events |
| BacktestEngine.RunImpl | latency_arb/src/backtest/backtest_engine.cpp:47-259 | the result is the report of the specified replay, or zeros with capital and delay when a stream is empty |
| BacktestEngine.ReportAddsUp | latency_arb/src/backtest/backtest_engine.cpp:251-255 | published figures agree: equity, total pnl, gross figures, curve, drawdown, trade count, signals against fills and rejections, and profit factor, which is above 1 exactly when the total is positive |
| BacktestEngine.ReportDescribes | latency_arb/src/backtest/backtest_engine.cpp:189-206 | published span (first and last tick of both streams), valid tick counts, capital of 1000 a lot, delay |
| BacktestEngine.InstantFactorZero | latency_arb/src/backtest/backtest_engine.cpp:251-255 | an instant replay on uncrossed quotes without negative costs is published with gross profit 0 and profit factor 0 |

## Left out

- FixExecutor.FixExecutor.BeginSession: the reset between `connect` and the Logon is one step; resolving, TLS and retries are inputs, because they rest on libraries.
- FixSession.StepInv: `stop()` and its direct Logout write are not steps; it bypasses the write queue.
- FixSession.PeerNumbering: partial delivery of a frame whose write failed is not modelled; a started write counts as given to the stream.
- FixSession.ReadsJoin: the reads carry one time stamp, because stamps are printed in the answers they queue.
- FixSession.OrdersSentOnce: session names and the drain's time stamp are taken to hold no SOH.
- FixAnswers.TestRequestAnswered: the same, and so for the other lemmas that scan an answer back.
- FixMessage.OrderReadsBack: quantities and levels carry the text snprintf gives them; how "%g" and "%.5f" round is not modelled.
- One time stamp a step stands for the clock readings inside it; latency stamps, silence time-outs and log lines are left out.
- A bound on the mailbox: drained jobs are parked back outside the first critical section, so the queue limit does not bound it.
- Numbers read with atol and atoi are unbounded; a BodyLength text that overflows a long is over the cap in the model.
- RingInterleaving.SpscSafety: memory is sequentially consistent and slot accesses are atomic; weak orderings and torn reads are not modelled.
- SpscRing.LappingLaw: the index mask is taken as remainder modulo Capacity, which it is for the powers of two the source admits.
- WireCodec.WireRoundTrip: prices are exact millionths; rounding of doubles to six decimals, and exponents, hexadecimal, infinities and NaN in received texts are not modelled.
- WireCodec.DecodeSignal: the null frame pointer is left out, as are the fixed symbol and the valid flag.
- Aggregator.Aggregator.Update: the US-session flag is a parameter, since it comes from local time; telemetry is left out.
- Momentum.SignalExactly: the window is not negative; for a negative one `RefPriceIs` gives the reference on the buffer.
- Momentum.SignalGenerator.Update: prices are positive, so that the change against the reference is defined, and the clock reading is a parameter.
- ReplayRisk.LossStop: commission is not negative; a rebate would be credited twice to the daily pnl, which holds the gate open below the line.
- ReplayStop.LossStopExact: commission is not negative, for the same reason.
- ReplayRisk.SignalsSpaced: the first signal is not at time 0, where the statement is false of the source; after a negative time stamp the ticks are taken in time order.
- ReplayLedger.SignalConservation: the lag stream is sorted, as the tick files are.
- BacktestEngine.RunImpl: Sharpe ratios need square roots and are left out; doubles are reals, so rounding, NaN and the finiteness test of a fill price are not modelled.
- The latency decay matrix repeats the replay for a list of delays and adds nothing to it.
- Memory-mapped tick files, CSV conversion, binary search by time, command line, configuration, telemetry, WebSocket, ZeroMQ, HTTP and MT5 clients, and the Python trader.
