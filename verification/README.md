# NeuVector protocols in Dafny

A model, with proofs, of the parts of NeuVector where state is handed from one worker to another
or rebuilt from pieces.  `dafny verify dfyconfig.toml` checks all of it.

- **Data path to control thread** (dp/ctrl.c): `ThreatRing` is the single-producer,
  single-consumer log ring as a machine of interleaved steps.  `ConnectReport` is the pair of
  connection maps that is swapped under an RCU grace period and drained into messages, on top of
  `RateLimiter`.  `DlpConfig` is the mark and sweep of DLP and WAF settings, with the agent's
  sender (agent/dp/ctrl.go).
- **Packet ring** (dp/ring.c): `RingMask` is the offset arithmetic, `PacketRing` the slot
  ownership protocol with the kernel as an environment.
- **Aggregation** (`Aggregation`): what the data path and the agent merge, and that two levels of
  merging are one.  `ConnectionMap` is the agent's map with take, send and put back, and
  `ConnectionOrder` the order in which its records are delivered (agent/timer.go).
- **Group profiles**: `Criteria` is the selection of workloads (share/criteria.go),
  `ProcessRules` the merge of process rules into one prioritised list, `GroupCache` the cache of
  such lists with its set of containers to recalculate, `GroupCacheRuns` runs of it
  (agent/group_profile.go).
- **Pagination** of session and meter lists (agent/service.go) and **Lifecycle** reports
  (agent/engine.go, agent/cluster.go).
- **CVE database**: `CveUpload` follows it from scanner to cache, `CveStore` is the switch of the
  published version with crashes (controller/grpc.go).
- `PolicySlots` (controller/cache/policy.go, agent/system.go) and `PcapFiles` (agent/sniffer.go)
  rebuild an order from dealt or rotated pieces.  `Basics` and `Rings` are shared notions.

Interleavings are machines over datatypes: a state, events, and theorems over every run.  Code
that updates in place is a class or a loop whose contract ties it to the machine's step or to a
specification function.  Go's map order is an arbitrary choice everywhere.

Where the code and its documentation disagree, the model follows the code.  The comment on
`IsWorkloadSelected` promises "or" as soon as a criterion is positive; the loop instead keeps the
conjunction of the negatives seen before the first positive one.  `Criteria.DocumentedRuleExactly`
says exactly when the two agree.

Several expected properties are false of the code.  Each has a concrete failing input and the
exact condition under which it holds:

- nothing lost and no panic in the agent's connection map: `ConnectionMap.RunLosesExactly`,
  `PanicsExactly` and `RunOutgrowsExactly`, with `OtherSideLoses`,
  `MeshAddressLoses` and `DenialsPanic`;
- one merge of all records at the controller: `ConnectionOrder.OrderedExactly` and
  `MergesAlikeExactly`, with `CrossedAnswers`;
- published database there and readable: `CveStore.PublishedExactly` and `StaysReadableExactly`,
  with `RetryLoses` and `SameVersionLoses`;
- WAF names in force: `DlpConfig.WafSideExactly`, with `FortyOneWafNames`; the sender's loop at its
  end: `HangsExactly` and `CompletesExactly`, with `TwoNamesHang`;
- rules in priority order, whatever order maps have: `ProcessRules.MergeImplementsPriorityExactly`,
  `PriorityOrderExactly` and `OrderIrrelevantExactly`, with `ColonNamesCollide`;
- starts and stops alternating: `Lifecycle.RunAlternatesExactly`, with `ReusedPidDoublesStart`;
- the page asked for: `Pagination.PageLimitExactly`, with `LongPageOverflows`;
- the policy read back: `PolicySlots.PolicyRoundTripExactly`, which names what happens to a first
  rule without addresses;
- captures in order of time: `PcapFiles.SortedExactly`, with `TurnedBackIsUnsorted`.

A cached profile that nothing marks is not always fresh either: `GroupCacheRuns` has the runs.
It is fresh when its last store came from a worker that gathered after the last mark
(`GroupCache.QuietIsCurrentOrLate`).  The converse does not hold, because a mark need not mean a
change (`GroupCacheRuns.LateYetFresh`).

## Model

| member | source | states |
|---|---|---|
| `RateLimiter.Limiter.constructor` | dp/ctrl.c:2381-2387 | A limiter starts as the reset window: counters 0, start time now. |
| `RateLimiter.Limiter.CheckNow` | dp/ctrl.c:2389-2413 | One check moves the window as the specification says (new window when more than `dur` has passed) and returns 0 exactly when the check is admitted. |
| `RateLimiter.TotalsCountEveryCheck` | dp/ctrl.c:2401-2409 | Over any run, passes grow by exactly the admitted checks and passes plus drops grow by the number of checks, while the 32-bit totals have not wrapped. |
| `RateLimiter.AllowanceClosedForm` | dp/ctrl.c:2389-2400 | The allowance counted window by window is `limit * (span / (dur + 1))`. |
| `RateLimiter.RateBound` | dp/ctrl.c:2389-2413 | For every history and every non-decreasing clock, the checks admitted from time a to time b are at most `limit * (1 + (b - a + dur) / (dur + 1))`. |
| `RateLimiter.RateBoundIsMet` | dp/ctrl.c:2389-2413 | That bound is the exact maximum: for every duration, limit and span some checks are admitted just so often. |
| `RateLimiter.MostInWindows` | dp/ctrl.c:2389-2413 | Counted in whole windows it is at most `limit` for each window of the span and for two more. |
| `RateLimiter.FirstWindows` | dp/ctrl.c:2381-2413 | A limiter reset at `now` admits up to `limit` checks at any time until `now + dur`, and up to `limit` more one second later, while times and counts fit 32 bits. |
| `ThreatRing.WriterOwnsSlot` | dp/ctrl.c:2364-2376 | Between the producer's test and its publish, the slot at `log_writer` holds no unread log and is not the slot being read. |
| `ThreatRing.StepKeepsInv` | dp/ctrl.c:2338-2378 | Every step of producer and consumer, in any interleaving, keeps the ring invariant (indices, contents of the unread slots, who is where). |
| `ThreatRing.FullIsExact` | dp/ctrl.c:2364-2367 | `log_writer == log_reader` holds exactly when `MAX_LOG_ENTRIES - 1` logs are unclaimed. |
| `ThreatRing.DrainedIsExact` | dp/ctrl.c:2346-2349 | `log_reader + 1 == log_writer` holds exactly when no log is unclaimed. |
| `ThreatRing.EveryRunDelivers` | dp/ctrl.c:2338-2378 | From the initial indices, in every interleaving: the logs delivered are a prefix of the logs accepted (order, no loss, no repeat), outstanding logs are bounded, writer and reader never share a slot, and both tests are exact. |
| `ThreatRing.ReadIsStable` | dp/ctrl.c:2350-2355 | After the reader index has moved and until the copy is done, no producer step changes the slot, which holds the next accepted log. |
| `ThreatRing.LoggedIsRun` | dp/ctrl.c:2360-2378 | A whole successful `dp_ctrl_threat_log` is the producer's three steps and keeps the invariant. |
| `ThreatRing.ConsumedIsRun` | dp/ctrl.c:2345-2356 | One turn of the consumer loop is the consumer's three steps and keeps the invariant. |
| `ThreatRing.ThreadData.constructor` | dp/ctrl.c:2741-2754 | Start-up puts the reader at the last slot and the writer at the first: the ring is valid and empty. |
| `ThreatRing.ThreadData.ThreatLog` | dp/ctrl.c:2360-2378 | Refused exactly when `MAX_LOG_ENTRIES - 1` logs wait, changing nothing; otherwise the log is appended to the accepted ones. |
| `ThreatRing.ThreadData.ConsumeThreatLog` | dp/ctrl.c:2338-2358 | With no producer at work the loop ends with every accepted log delivered, in order, and the ring untouched. |
| `Aggregation.MergeAssociates` | agent/timer.go:400-412 | The agent's merge is associative. |
| `Aggregation.RecordIsMerge` | dp/ctrl.c:2528-2543 | Recording a report into a node is merging the node that the report alone would make. |
| `Aggregation.FoldSplits` | dp/ctrl.c:2528-2543 | A fold over a concatenation is the merge of the two folds. |
| `Aggregation.TwoLevelsEqualOne` | agent/timer.go:400-412 | However reports are cut into data-path batches, merging the batches in the agent gives the record of one direct fold, in every field. |
| `Aggregation.FoldMeans` | dp/ctrl.c:2526-2584 | A record's counters are the sums over its reports, its first-seen time that of the first report, its policy that of the latest report (the last of equals), its threat that of the gravest report (the first of equals). |
| `ConnectReport.StepStaysSafe` | dp/ctrl.c:2521-2682 | Every step of reporters and drainer keeps the swap safe: a reporter works on the old map only before the grace period ends, counters match map sizes, the message buffer is never over-full. |
| `ConnectReport.GraceEndsQuiet` | dp/ctrl.c:2628-2682 | When the grace period ends, no reporter works on the map about to be drained and its counter equals its size. |
| `ConnectReport.DrainedMapUntouched` | dp/ctrl.c:2628-2682 | While a map is being drained, no step of any data-path thread changes it or its counter. |
| `ConnectReport.RunStaysSafe` | dp/ctrl.c:2521-2682 | The swap stays safe over whole runs. |
| `ConnectReport.EveryRunBalances` | dp/ctrl.c:2521-2682 | For every weight of a report, what was reported equals rate-limited plus sent plus pending, in every run; no message is empty or exceeds `CONNECTS_PER_MSG`. |
| `ConnectReport.EveryRunCounts` | dp/ctrl.c:2521-2682 | In every run, for each connection by itself and for any choice of them: the bytes, sessions and violations reported equal those in its records sent, in the message under construction and in all maps, plus those of its reports rate-limited. |
| `ConnectReport.QuietRunSentAll` | dp/ctrl.c:2628-2682 | When all maps and the buffer are empty, what was reported of each connection is in its records in the messages or was rate-limited. |
| `ConnectReport.EveryRecordIsAFold` | dp/ctrl.c:2526-2590 | In every run each record, pending or sent, is the fold of exactly the reports it stands for, and all of these are of the record's own connection (both addresses, port, protocol and the rest of the key). |
| `ConnectReport.AgentSeesOneFold` | dp/ctrl.c:2526-2590 | Whichever sent records the agent merges into one entry, the entry is the direct fold of all reports behind them. |
| `ConnectReport.RecordsAreLimited` | dp/ctrl.c:2535-2584 | In every run of fewer than 2^32 checks, a data-path thread adds, from any time a to any time b, at most as many records as a limiter of 400 checks in 2 seconds can admit in that span. |
| `ConnectReport.DataPath.constructor` | dp/ctrl.c:2757-2764 | Start-up: both maps empty, counters 0, map 0 current, and the limiter reset to 400 checks in 2 seconds. |
| `ConnectReport.DataPath.ConnectReport` | dp/ctrl.c:2471-2593 | A call is the machine's steps: merge into a node of the same connection, or create one if the limiter admits and memory allows, then count it; other maps and threads stay as they are.  The application part of the lookup key is arbitrary, as the code leaves it unset. |
| `ConnectReport.Notifier.SendConnects` | dp/ctrl.c:2598-2612 | Sends the buffered records as one message and empties the buffer. |
| `ConnectReport.Notifier.Append` | dp/ctrl.c:2653-2667 | Adds a record and sends the message once it is full; the stream of records is extended by that one. |
| `ConnectReport.Notifier.DrainMap` | dp/ctrl.c:2649-2672 | Every node of the map that the thread no longer uses goes out exactly once, and the map and its counter end at nothing. |
| `ConnectReport.Notifier.VisitThread` | dp/ctrl.c:2636-2673 | One thread's turn: an idle map is left alone; otherwise the maps are switched and the old one is drained to the last node. |
| `DlpConfig.Endpoint.Mark` | dp/ctrl.c:1887-1894 | START disables every entry and changes nothing else. |
| `DlpConfig.Endpoint.Enable` | dp/ctrl.c:1895-1913 | Names are applied one by one as the specification says: new, re-enabled with the new action, or already enabled and left alone. |
| `DlpConfig.Endpoint.Sweep` | dp/ctrl.c:1914-1927 | END removes disabled entries only, as many as there are or as the message's delete budget still allows, whichever is less. |
| `DlpConfig.Endpoint.Configure` | dp/ctrl.c:1883-1928 | A message part does mark, names and sweep by its flags, and nothing at all when it carries no names. |
| `DlpConfig.HandleMessage` | dp/ctrl.c:1784-1928 | One message for any number of endpoints: each does its part in turn, and the delete count, which starts at 0, runs on from one to the next and never exceeds the budget. |
| `DlpConfig.FirstMentionsMeans` | dp/ctrl.c:1895-1913 | The settings named by a list are its ids, each with the action of its first mention. |
| `DlpConfig.TransferSweeps` | dp/ctrl.c:1883-1928 | A transfer is a chain of handled messages with END on the last.  Until END the endpoints only gather; the last message sweeps what was gathered, from a count of 0 on. |
| `DlpConfig.BudgetSpent` | dp/ctrl.c:1784-1928 | When the last message comes to an endpoint, it has spent what the endpoints before it had to delete, or the whole budget. |
| `DlpConfig.TransferExactly` | dp/ctrl.c:1883-1928 | For a transfer to any number of endpoints, handled message by message and beginning with START: whatever their maps held, what is in force depends on the parts alone; and nothing else is left in any map if and only if the stale entries of all of them together fit one message's delete budget. |
| `DlpConfig.MarkAndSweepExactly` | dp/ctrl.c:1883-1928 | With START on the first part only, the enabled entries are exactly the ids named, each with the action of its first mention; no other entry remains anywhere if and only if the endpoints' other ids together fit the budget. |
| `DlpConfig.LaterMessages` | agent/dp/ctrl.go:684-767 | Once a DLP name has gone out, later messages carry on where the last one stopped, on both sides. |
| `DlpConfig.MessageShares` | agent/dp/ctrl.go:684-714 | A message that cannot take all names carries DLP names up to half its limit and fills up with WAF names; a kind with fewer names than that goes out whole. |
| `DlpConfig.DlpSide` | agent/dp/ctrl.go:684-767 | The DLP side of a completed transfer always comes to all DLP names. |
| `DlpConfig.MessagesEndOnce` | agent/dp/ctrl.go:692-695 | A completed transfer has END on its last message and on no other. |
| `DlpConfig.WafSideIs` | agent/dp/ctrl.go:684-767 | The WAF side comes to the names that go out from the last START on. |
| `DlpConfig.ForgottenExactly` | agent/dp/ctrl.go:688-691 | No WAF name goes out before the last START if and only if START is sent once or there are none. |
| `DlpConfig.WafSideExactly` | agent/dp/ctrl.go:684-767 | The WAF side comes to all WAF names if and only if the names from the last START on come to the same; for distinct ids, if and only if START is sent once or there are none. |
| `DlpConfig.FortyOneWafNames` | agent/dp/ctrl.go:688-691 | A concrete failure: 41 WAF names without a DLP name. |
| `DlpConfig.AgentToDataPath` | agent/dp/ctrl.go:666-770 | Sender and receiver together, message by message, for any previous maps: the DLP names come into force at every endpoint; the WAF names do if and only if the ones from the last START on come to the same, which for distinct ids means that START is sent once or there are none. |
| `DlpConfig.ShrunkIsLess` | agent/dp/ctrl.go:741-755 | Each retry of a message that came out too long makes the number of names per message smaller. |
| `DlpConfig.RetriesAreProper` | agent/dp/ctrl.go:687-756 | The retries end at a limit no larger than the one they began with, and at the same one when they begin with it. |
| `DlpConfig.FitMessage` | agent/dp/ctrl.go:687-756 | The retries for one message, as a function of the names left, the limit and the sizes of messages: a limit under which it is short enough, or none, or a message without names, which divides by zero. |
| `DlpConfig.ConfigDlp` | agent/dp/ctrl.go:666-770 | The whole sender, as a function of the two lists, the sizes of messages and the number of sends that succeed: its result (all sent, too long, send failed, division by zero, index out of range in the error message) and the messages that went out; all were sent exactly when the last has END, and each was short enough. |
| `DlpConfig.AllSentIsCompleted` | agent/dp/ctrl.go:684-767 | The sender reports success if and only if the messages that went out end with END. |
| `DlpConfig.SentAreMessages` | agent/dp/ctrl.go:684-767 | What goes out is the sequence of messages that the results above speak of, for the limits the retries find. |
| `DlpConfig.HangsExactly` | agent/dp/ctrl.go:684-767 | For all lists and message sizes: the loop goes on however many sends succeed if and only if it comes to a message that carries no name and is not the last; otherwise it is over after at most one message more than there are names. |
| `DlpConfig.CompletesExactly` | agent/dp/ctrl.go:684-767 | With more sends than names, and unless a message is too long whatever the limit, everything goes out if and only if at most one DLP name is left when the sizes bring it to one name per message. |
| `DlpConfig.OnePerMessageExactly` | agent/dp/ctrl.go:697-712 | With one name per message, whatever the WAF names, the loop gets through if and only if there is at most one DLP name. |
| `DlpConfig.TwoNamesExactly` | agent/dp/ctrl.go:692-755 | What becomes of two DLP names alone, by the size of the message with both and of the message without names. |
| `DlpConfig.TwoNamesHang` | agent/dp/ctrl.go:692-712 | The hang: if both are too long for one message but not twice too long, and a message without names is short enough, every send goes out as an empty message with START. |
| `RingMask.PowerWalksRound` | dp/ring.c:89-93 | In a ring of power-of-two size the masked step leads to the next frame, and from the last one to the first. |
| `RingMask.WalksRoundExactly` | dp/ring.c:161-165 | The mask equals the modulo at every frame if and only if the ring size is a power of two. |
| `RingMask.BlocksDecide` | dp/ring.c:212-221 | The ring size is a power of two if and only if the block count is. |
| `RingMask.MaskIsModuloExactly` | dp/ring.c:212-221 | Masking walks round the whole ring if and only if it was set up with a power-of-two number of blocks, in both frame sizes. |
| `RingMask.OpenedRingsWalkRound` | dp/pkt.c:27-31 | The block counts with which rings are opened are powers of two, so those rings are walked round. |
| `PacketRing.HeadIsFree` | dp/ring.c:125-132 | The slot at the kernel's head is free exactly when the ring is not full. |
| `PacketRing.PosHasFrame` | dp/ring.c:125-132 | The status test at the offset is exact: the slot is the user's exactly when a frame waits, and it is the oldest one. |
| `PacketRing.SocketInStep` | dp/ring.c:136-150 | When a truncated frame was also queued on the socket, the next packet read there is that very frame. |
| `PacketRing.RxStepKeepsInv` | dp/ring.c:108-172 | Kernel arrivals and the steps of the receiver keep slot ownership, in any interleaving. |
| `PacketRing.EveryFrameOnce` | dp/ring.c:108-172 | In every run the frames delivered are exactly the deliverable ones among those taken, whole, once, in order of arrival; the socket queue stays in step; the ring is found empty only when nothing waits. |
| `PacketRing.DeliveredMeans` | dp/ring.c:136-158 | Inspected are exactly the frames that came whole, and those spilled to the socket of at most 65536 bytes, each as often as it came. |
| `PacketRing.TxStepKeepsInv` | dp/ring.c:51-106 | Sends, flushes and kernel steps keep the transmit ring's invariant. |
| `PacketRing.EveryPacketOnce` | dp/ring.c:51-106 | In every run packets go out in order, each once; an accepted packet is not overwritten before the kernel took it; `stats.tx + tx_pending` counts the packets accepted; `tx_pending` is below the flush limit between calls. |
| `PacketRing.PollMeans` | dp/ring.c:122-172 | A batch takes one frame per look; it returns the count only when it left none behind, and otherwise took the whole batch. |
| `PacketRing.OffsetStep` | dp/ring.c:161-165 | Offsets stay multiples of the frame size below the ring size. |
| `PacketRing.RxRing.constructor` | dp/ring.c:190-227 | A ring set up with any number of blocks starts empty; it walks round, and is valid, exactly for powers of two. |
| `PacketRing.RxRing.KernelArrival` | dp/ring.c:125-132 | The kernel as environment: it fills the slot at its head unless the user still owns it. |
| `PacketRing.RxRing.ConsumeFrame` | dp/ring.c:136-158 | A frame goes to inspection whole or not at all; the socket is read whenever the kernel queued the packet there. |
| `PacketRing.RxRing.ReleaseFrame` | dp/ring.c:160-165 | The slot goes back to the kernel and the offset steps on by mask. |
| `PacketRing.RxRing.ReceiveBatch` | dp/ring.c:122-165 | The batch loop with arrivals in between: result and new state are those of the specification, with what was delivered and how many frames were taken stated outright. |
| `PacketRing.TxRing.constructor` | dp/ring.c:190-227 | The same for the transmit ring. |
| `PacketRing.RxRing.Receive` | dp/ring.c:108-172 | The batch, and then, unless tapping, a kick for everything pending in the peer's transmit ring. |
| `PacketRing.TxRing.FlushPending` | dp/ring.c:51-60 | A kick moves the pending count into `stats.tx` once the limit is reached. |
| `PacketRing.TxRing.Transmit` | dp/ring.c:62-106 | A large frame flushes first, bypasses the ring and returns the socket's answer; any other packet is accepted, and its length returned, exactly when its slot is free, and otherwise counted as dropped. |
| `ConnectionMap.StepIsMove` | agent/timer.go:380-596 | What each event does to one key: join, enter, refused, out or passed over by a list, sent, back or forgotten with one of the lists in flight. |
| `ConnectionMap.MoveBalances` | agent/timer.go:400-412 | Each such move keeps the key's ledger. |
| `ConnectionMap.EveryRunAccounts` | agent/timer.go:380-596 | Key by key, in every run with any number of lists in flight, answered in any order by success, error or resend: recorded bytes, sessions and violations equal delivered plus in all lists in flight plus in the map plus lost. |
| `ConnectionMap.LosesExactly` | agent/timer.go:399-436 | A step loses something if and only if a data-path record meets an entry of its connection whose mesh flag is not the record's, or finds no room for a new one, or a list comes back to occupied keys or to a map too full for it; stated over flags, sizes and actions alone. |
| `ConnectionMap.RunLosesExactly` | agent/timer.go:380-596 | A run keeps every record of every key if and only if each of its steps is one of those that lose nothing. |
| `ConnectionMap.OtherSideLoses` | agent/timer.go:395-418 | A run that loses a record: a connection seen on one side of a mesh and then on the other. |
| `ConnectionMap.MeshAddressLoses` | agent/timer.go:395-418 | Another: a connection with a mesh address that is not seen on the mesh side never merges, so its second record replaces the first. |
| `ConnectionMap.HarmlessRunsConserve` | agent/timer.go:380-596 | In such a run each key's recorded bytes, sessions and violations equal delivered plus in flight plus in the map. |
| `ConnectionMap.OneSidedRecordsMerge` | agent/timer.go:380-437 | Before a list is taken, with each connection on its own side of the mesh, on it or off it, and no more connections than the map holds: nothing is lost and each connection is held as the merge of all its records. |
| `ConnectionMap.PanicsExactly` | agent/timer.go:580-586 | Putting some list back slices to a negative length if and only if there is one in flight and the map holds more than its limit. |
| `ConnectionMap.OutgrowsExactly` | agent/timer.go:399-414 | A step takes the map over its limit if and only if it is a new key's violation or denial, from the data path, that meets it full. |
| `ConnectionMap.RunOutgrowsExactly` | agent/timer.go:399-414 | In every run the map exceeds its limit at some point if and only if such a record comes at some point. |
| `ConnectionMap.PanicNeedsOutgrowth` | agent/timer.go:575-587 | No run panics without such a record. |
| `ConnectionMap.OutgrowthInFlightPanics` | agent/timer.go:575-587 | Such a record while a list is on its way makes sending that list again panic. |
| `ConnectionMap.ModerateNeverOutgrows` | agent/timer.go:413 | Without violations and denials there is no such record. |
| `ConnectionMap.DenialsPanic` | agent/timer.go:575-587 | A concrete run to the panic: more denials than the map holds arrive while a list is on its way, and the list is to be sent again. |
| `ConnectionMap.Connections.UpdateConnectionMap` | agent/timer.go:380-437 | Merges into an entry of the same side of the mesh, else inserts when there is room or the action is above CHECK_APP, else drops. |
| `ConnectionMap.Connections.UpdateHostConnection` | agent/timer.go:439-505 | A host record of a known container merges into any entry, leaving its threat alone, or is inserted if there is room, whatever its action. |
| `ConnectionMap.Connections.TakeList` | agent/timer.go:552-562 | Takes out every entry or `connectionListMax` of them, each once with its key. |
| `ConnectionMap.Connections.PutBackList` | agent/timer.go:575-588 | Puts back the leading entries of the list, as many as fit, over what is there; fails exactly when the map has outgrown its limit. |
| `ConnectionOrder.MoveOnce` | agent/timer.go:380-596 | Each record of a key stays in exactly one place: delivered, in one of the lists, in the map, or lost. |
| `ConnectionOrder.EveryRunMerges` | agent/timer.go:380-596 | In every run, key by key: each record is in exactly one place, and what was not lost merges to the merge of its records in the order of their places. |
| `ConnectionOrder.InOrderExactly` | agent/timer.go:552-588 | A move keeps a key's records in the order recorded if and only if it does not deliver a list while an older one has the key, nor put one back while a newer one has it. |
| `ConnectionOrder.OrderedExactly` | agent/timer.go:552-588 | In every run a key's records are at all times in the order recorded if and only if all its lists are answered so. |
| `ConnectionOrder.InOrderRunsMerge` | agent/timer.go:400-412 | Then, if nothing of the key was lost, what is delivered, in flight and in the map merges to exactly the merge of all its records. |
| `ConnectionOrder.MergesAlikeExactly` | agent/timer.go:400-412 | In any other order some contents of the records merge to something else. |
| `ConnectionOrder.CrossedAnswers` | agent/timer.go:552-596 | A run in which two lists are answered crosswise: nothing is lost, and the merge at the controller differs. |
| `Criteria.AccumulateIsClosed` | share/criteria.go:191-202 | The loop's fold over the criteria of one key is its closed form: the conjunction of the negatives before the first positive, or anything met from there on; the conjunction of all if none is positive. |
| `Criteria.FoldedDecides` | share/criteria.go:205-214 | The final scan over the result map, in any order, is the conjunction of the closed forms, and false without criteria. |
| `Criteria.IsWorkloadSelected` | share/criteria.go:160-215 | The whole loop computes selection in closed form, with an address criterion anywhere making it false. |
| `Criteria.IsSvcIpGroupSelected` | share/criteria.go:100-137 | The same for service-IP groups, where only domain and namespace criteria take part. |
| `Criteria.DocumentedRuleExactly` | share/criteria.go:157-159 | The code follows its documented rule, whatever matches, if and only if the key has no positive criterion or at most one negative before the first. |
| `Criteria.SameSignOrderIrrelevant` | share/criteria.go:191-202 | Reordering criteria of one sign changes nothing. |
| `Criteria.SingleCriterion` | share/criteria.go:160-215 | One criterion selects by the attribute its key names, any other key by the label of that name, which must be there; an address never selects. |
| `Criteria.PairOfCriteria` | share/criteria.go:160-215 | Two criteria of different attributes are joined by and; two of one attribute by and if both are negated, otherwise by or. |
| `Criteria.CheckGroupMember` | share/criteria.go:139-155 | Selection and the loop over the group's domains decide membership. |
| `Criteria.MembersAreLocal` | share/criteria.go:139-155 | A group of some domains has no members elsewhere, one without criteria has none at all, and one of any domain has all it selects. |
| `ProcessRules.SortSorts` | agent/group_profile.go:421-437 | The sort orders by name and path and keeps distinct keys distinct. |
| `ProcessRules.StrLessExactly` | agent/group_profile.go:429-434 | Strings compare by the first character that differs, a prefix before what it begins. |
| `ProcessRules.NamesInOrder` | agent/group_profile.go:429-434 | In a sorted list names never fall, and under one name paths never fall. |
| `ProcessRules.MapProcToSortedSlices` | agent/group_profile.go:421-437 | Every entry of the map once, in order, whatever order the map yields. |
| `ProcessRules.File` | agent/group_profile.go:453-483 | An entry goes into the map of its class under its key, replacing an earlier one; a deny-all entry vanishes. |
| `ProcessRules.OutranksExactly` | agent/group_profile.go:439-483 | The class numbers are exactly the documented ranking: allow-all first, deny before allow, a specific rule before a recursive path before a wildcard name. |
| `ProcessRules.MergeProcessProfiles` | agent/group_profile.go:447-490 | The merged list is the sorted winners of each class, class after class. |
| `ProcessRules.Represented` | agent/group_profile.go:447-490 | If every rule that nothing covers survives, each kept rule that nothing covers has a rule of its name and path in its class or a lower one. |
| `ProcessRules.RepresentedInClass` | agent/group_profile.go:447-490 | If rules that share a key share name and path, each kept rule has one of its name and path in its own class of the merged list. |
| `ProcessRules.MergeDecides` | agent/group_profile.go:447-490 | If every rule that nothing covers survives, the first hit of a merged list is a rule of the lowest class that is hit at all, with the least name and path there. |
| `ProcessRules.MergeImplementsPriorityExactly` | agent/group_profile.go:447-490 | A merged list follows the priority order for every match predicate if and only if each kept rule, unless a lower class has one of its name and path, is the winner of its key by name and path. |
| `ProcessRules.MergeImplementsPriority` | agent/group_profile.go:447-490 | So it does for names without ':'. |
| `ProcessRules.AnswerOutranks` | agent/group_profile.go:439-490 | No rule that is hit outranks the answer, and a deny-all rule never is the answer. |
| `ProcessRules.DeniedExactly` | agent/group_profile.go:439-490 | The priority order's verdict is deny if and only if a kept deny rule is hit and no allow-all rule is. |
| `ProcessRules.CalculateLayers` | agent/group_profile.go:592-649 | The calculated list is the merged federal, custom-resource and remaining layers in that order. |
| `ProcessRules.PriorityOrder` | agent/group_profile.go:592-649 | If each layer's rules that the layers above do not cover survive, the first hit of the calculated list, for any match predicate, comes from the highest layer, then the lowest class, then the least name and path that is hit at all. |
| `ProcessRules.PriorityOrderExactly` | agent/group_profile.go:592-649 | It does so for every match predicate if and only if they survive, given that no rule stands in two layers. |
| `ProcessRules.PlainIsFaithful` | agent/group_profile.go:453-454 | They do for names without ':'. |
| `ProcessRules.OrderIrrelevant` | agent/group_profile.go:592-649 | Two calculations from the same rules, in any map order, give lists that agree place by place in class, name and path, if rules of one class that share a key share name and path. |
| `ProcessRules.OrderIrrelevantExactly` | agent/group_profile.go:447-490 | The order of enumeration never shows in a merged list if and only if they do. |
| `ProcessRules.AgreeingLookups` | agent/group_profile.go:592-649 | Every lookup in such lists finds rules of the same class, name and path, with the same verdict. |
| `ProcessRules.ColonNamesCollide` | agent/group_profile.go:453-454 | With ':' in names two different rules can share a key; one is lost, and the priority order fails. |
| `GroupCache.StepKeepsCoherent` | agent/group_profile.go:115-397 | Every event keeps the cache coherent: joins, leaves, criteria and profile changes, group deletes, ticks at any time, and the steps of any number of recalculations of one container in between. |
| `GroupCache.CurrentStoreIsFresh` | agent/group_profile.go:352-397 | After any run, however recalculations overlap: what a worker stored that gathered after the last mark of its container is exactly a fresh calculation from the current groups. |
| `GroupCache.QuietIsCurrentOrLate` | agent/group_profile.go:352-397 | A joined container that is not marked, not being recalculated and in its own present service group has a profile; it is such a store if and only if the last store did not come from a worker that had gathered before a mark. |
| `GroupCache.DirtySetIsSound` | agent/group_profile.go:352-397 | If no tick takes a container whose recalculation is still under way, no such late store is ever left: the container's cached profile is fresh. |
| `GroupCacheRuns.OvertakenIsStale` | agent/group_profile.go:378-397 | Overlap does harm: a run from an empty cache in which the older of two recalculations stores last, and a rule that was withdrawn stays in the cache of a container that is neither marked nor being recalculated. |
| `GroupCacheRuns.LateYetFresh` | agent/group_profile.go:158-180 | A late store need not be stale: a run in which the mark was a fill that changed nothing. |
| `GroupCache.CurrentCacheDecides` | agent/group_profile.go:585-662 | A current cached list comes from layers of the rules of the container's current groups, and decides every lookup as the priority order over them does, federal groups' rules first, if these layers meet the exact condition for that. |
| `GroupCache.FreshHolds` | agent/group_profile.go:585-662 | A fresh profile holds only rules of the container's groups. |
| `GroupCache.FreshRepresents` | agent/group_profile.go:585-662 | And it holds every kept one of theirs by name and path, if rules of one class that share a key share those. |
| `GroupCache.GatheredWhere` | agent/group_profile.go:592-610 | In any map order: the first layer holds exactly the rules of the container's groups whose names begin with `fed.`, the second the custom-resource rules of its other groups, the third their remaining rules. |
| `GroupCache.CalculatedWhere` | agent/group_profile.go:592-625 | With its service group's rules added, the three layers hold exactly the federal rules, the custom-resource rules and the others of groups and service. |
| `GroupCache.DecidedIsRanked` | agent/group_profile.go:592-649 | A lookup is answered by a federal group's rule if one is hit, else by a custom-resource rule if one is hit, else by another rule that is hit, else by none. |
| `GroupCache.ResultIsRanked` | agent/group_profile.go:585-662 | So is every lookup in a calculated list, for names without ':'. |
| `GroupCache.UnsafeFillIsStale` | agent/group_profile.go:158-180 | The guard on fills is needed: a fill that drops a clean container from a group with a rule of its own leaves a stale cache unmarked. |
| `GroupCacheRuns.FillAfterRejoinIsStale` | agent/group_profile.go:158-180 | A run from an empty cache to such a fill: a container joins again with attributes that the group no longer selects. |
| `GroupCache.SilentLoadIsStale` | agent/group_profile.go:115-127 | A service profile that a worker loads on the way marks nobody: a member whose cache lacks one of its rules is left stale and unmarked. |
| `GroupCacheRuns.FailedLoadForgets` | agent/group_profile.go:115-127 | A run from an empty cache in which that load fails: the recalculation ends, and the container has no profile, no mark and no recalculation. |
| `GroupCacheRuns.Recalculated` | agent/group_profile.go:352-397 | From any state with a marked active container and its service profile loaded, a run leads to a fresh profile ready to be stored. |
| `GroupCache.ProfileCache.RefreshGroupMembers` | agent/group_profile.go:331-345 | The members are the selected active containers, in any map order. |
| `GroupCache.ProfileCache.FillGroupProfiles` | agent/group_profile.go:158-180 | A known group gets its loaded profile, each rule with the group's name, and its members are found anew and marked; an unknown one changes nothing. |
| `GroupCache.ProfileCache.UpdateCriteria` | agent/group_profile.go:210-248 | A group's criteria are stored and its members refreshed; those that enter or leave are marked. |
| `GroupCache.ProfileCache.UpdateProcess` | agent/group_profile.go:249-260 | A changed process profile of a known group is stored, each rule with the group's name, and the group's members are marked. |
| `GroupCache.ProfileCache.DeleteGroupProfileCache` | agent/group_profile.go:301-315 | A deleted group marks its members and is gone; an unknown one changes nothing. |
| `GroupCache.ProfileCache.WorkloadJoinGroup` | agent/group_profile.go:855-887 | A joining container enters every group that selects it, and is marked. |
| `GroupCache.ProfileCache.WorkloadLeaveGroup` | agent/group_profile.go:890-919 | A leaving container leaves every group, its mark and its cached profile go. |
| `GroupCache.ProfileCache.GatherRules` | agent/group_profile.go:592-610 | The rules of all groups that have the container as a member, federal groups' in the first layer, custom-resource rules in the second, others in the third, in any map order. |
| `GroupCache.ProfileCache.GetProcessProfile` | agent/group_profile.go:115-127 | The cached profile, or the one loaded now, which then stays in the cache; fails for an unknown group and for a failed load. |
| `GroupCache.ProfileCache.CalculateProcGroupProfile` | agent/group_profile.go:585-662 | Succeeds exactly when the service group is present and its profile loaded or loadable; the result is then a calculation from the groups and that profile, and fresh if nothing had to be loaded.  For names without ':' every lookup in it is answered by a federal group's rule if one is hit, else by a custom-resource rule, else by another. |
| `GroupCache.ProfileCache.ApplyProcGroupProfile` | agent/group_profile.go:783-796 | An uninterrupted recalculation with the service profile loaded leaves the fresh profile in the cache and other entries alone. |
| `Pagination.AnswerIsWindow` | agent/service.go:83-262 | For every host prefix and every cutting of the stream, with `Limit` 0 or at most one above the batch limit and no 32-bit overflow, the joined batches are the stream with `Start` dropped and then `Limit` taken. |
| `Pagination.PageLimitExactly` | agent/service.go:83-262 | Those page limits are exactly the ones answered correctly for every stream, however few items a message may carry. |
| `Pagination.LongPageOverflows` | agent/service.go:83-262 | The failing stream for any other limit: one item more than the page, one by one, are all answered. |
| `Pagination.ListRequest.PaginateList` | agent/service.go:83-111 | One pass of the three-state pagination. |
| `Pagination.ListRequest.SendList` | agent/service.go:77-81 | The pending list goes out as a batch. |
| `Pagination.FilterMeans` | agent/service.go:229-257 | The filter keeps exactly the matching items, each as often as it came. |
| `Pagination.FilterEachIsFilter` | agent/service.go:229-257 | Filtering message by message is filtering the whole stream. |
| `Pagination.ListRequest.Callback` | agent/service.go:195-262 | One message: filtered items are appended, paginated, and sent when the batch limit is passed. |
| `Pagination.GetList` | agent/service.go:297-312 | What both requests share: drop and take on the filtered stream for the page limits above, the specified answer in any case; the data path is asked unless the host's own items fill the page. |
| `Pagination.GetSessionList` | agent/service.go:266-312 | A host-mode container's sessions go out as one batch, whatever page was asked for; otherwise the specified answer, which is drop and take for the page limits above, with the host-mode sessions first if no workload is named. |
| `Pagination.GetMeterList` | agent/service.go:477-492 | The same for meters, which the host has none of. |
| `Lifecycle.RunAlternatesExactly` | agent/cluster.go:524-600 | In every interleaving of the two workers: every workload's logged starts and stops alternate, beginning with a start, between its removes, if and only if no event is handled as an add of a workload not running while it is cached as running. |
| `Lifecycle.EveryRunAlternates` | agent/cluster.go:524-600 | So they do in every run whose restarts have fresh pids, and the last one agrees with the cache. |
| `Lifecycle.HarmlessExactly` | agent/cluster.go:524-600 | Handling one event keeps the workload's log well formed if and only if it is not an exited add for a workload cached as running. |
| `Lifecycle.HarmfulAddDoublesStart` | agent/cluster.go:524-550 | Such an add logs two starts in a row. |
| `Lifecycle.EveryRunTells` | agent/cluster.go:524-600 | In every interleaving, for every workload: the log is exactly what the events handled call for, and what is cached is what the last of them says, so a handled delete leaves nothing, a stop leaves it stopped, a running add started. |
| `Lifecycle.HandledWrites` | agent/cluster.go:524-600 | Handling one event: where every workload stands after it, and what is added to its log. |
| `Lifecycle.RemovesNumberDeletes` | agent/cluster.go:573-600 | In every run a workload's removes number the deletes handled while it was known. |
| `Lifecycle.WholeLife` | agent/engine.go:1473-1800 | A run of a whole life is logged as start, secured, stop and remove, and leaves nothing behind. |
| `Lifecycle.ExitedIsLogged` | agent/engine.go:1563-1680 | A container found exited is logged with its start and its stop, unless known as stopped. |
| `Lifecycle.StopsExactly` | agent/engine.go:1682-1773 | A stop is taken exactly for an active container whose pid it names, or names none, and which no longer runs. |
| `Lifecycle.DeleteStopsFirst` | agent/engine.go:1775-1800 | Deleting an active container whose process is gone reports its stop and then its delete; one with a live process is left alone. |
| `Lifecycle.StepSynced` | agent/engine.go:1473-1800 | A step keeps the channel consistent with the active containers (at most one unanswered live add per container) if and only if it is not a restart with the pid that an unfired intercept task waits for. |
| `Lifecycle.ReportedTwice` | agent/engine.go:1473-1561 | A run from the start: after such a restart a container is reported twice in one life. |
| `Lifecycle.ReusedPidDoublesStart` | agent/cluster.go:524-550 | The run goes on to the log: one report is handled while the container runs, then the container stops, and the other report handled after that gives two starts in a row. |
| `Lifecycle.Agent.TaskAddContainer` | agent/engine.go:1563-1680 | A running container becomes active and its interception is scheduled; an exited one is only reported.  The agent's invariant is kept exactly if the pid is fresh. |
| `Lifecycle.Agent.TaskInterceptContainer` | agent/engine.go:1473-1561 | Reports the container unless it is gone, restarted with another pid, or waits for its parent; keeps the invariant. |
| `Lifecycle.Agent.TaskStopContainer` | agent/engine.go:1682-1773 | A stopped container is reported and no longer active, unless the pid is another's or it still runs; keeps the invariant. |
| `Lifecycle.Agent.TaskDelContainer` | agent/engine.go:1775-1800 | A deleted container is stopped first if active, then reported; keeps the invariant. |
| `Lifecycle.Agent.ClusterAddContainer` | agent/cluster.go:524-550 | Caches the workload with its running flag and logs start or stop by what was cached before; log and cache stay in step if and only if the add is harmless. |
| `Lifecycle.Agent.ClusterStopContainer` | agent/cluster.go:552-571 | Logs a stop for a workload cached as running, start and stop for an unknown one; log and cache stay in step. |
| `Lifecycle.Agent.ClusterDelContainer` | agent/cluster.go:573-600 | Adds the remove of a cached workload to the log and forgets it; an unknown one changes nothing; log and cache stay in step. |
| `Lifecycle.Agent.HandleEvent` | agent/cluster.go:640-655 | The event goes to its handler. |
| `Lifecycle.Agent.ClusterEventHandler` | agent/cluster.go:640-655 | Takes the oldest event off the channel and handles it; log and cache stay in step if and only if it is harmless, and the agent's invariant is kept. |
| `CveUpload.TakeChunk` | scanner/server.go:214-233 | One block: `cvedbChunkMax` entries or all that are left, removed from the clone. |
| `CveUpload.SendChunks` | scanner/server.go:208-250 | The loop ends; all blocks but the last are full, there is at least one, and together they cover the database without overlap. |
| `CveUpload.Receive` | controller/grpc.go:113-137 | Merges the blocks in the order received. |
| `CveUpload.UploadRoundTrip` | controller/grpc.go:113-137 | However the map's order cut the database, the receiver ends with that database. |
| `CveUpload.Preprocess` | controller/grpc.go:41-61 | Keys are the names and the bare names; every value comes from the database under one or the other; a name that is nobody's bare name keeps its entry. |
| `CveUpload.BareKeepsMeta` | controller/grpc.go:41-61 | A bare name that the database does not have itself has the metadata of a scoped name that ends in it. |
| `CveUpload.HashToSlots` | controller/grpc.go:79-84 | Each entry in the slot its name hashes to, with its name made right. |
| `CveUpload.InSlotExactly` | controller/grpc.go:79-84 | A name is in a slot if and only if its hash gives that slot, with its own metadata under its own name. |
| `CveUpload.PrepareSlots` | controller/grpc.go:63-103 | 16, 32, 64 or 128 slots, the fewest whose slots are all below the size limit; an error exactly when none of the counts fits. |
| `CveUpload.Reassemble` | controller/cache/scan.go:886-898 | The reader holds every record of every slot under the record's own name, and nothing else. |
| `CveUpload.SlotsRoundTrip` | controller/grpc.go:79-84 | Reading slots back gives the database, each record named by its key. |
| `CveUpload.SlotsApart` | controller/grpc.go:79-84 | No name is in two slots. |
| `CveUpload.Publish` | controller/grpc.go:113-140 | From a scanner's database to a controller's cache: the preprocessed database with names fixed, or an error exactly as above. |
| `CveStore.StepKeepsInv` | controller/grpc.go:150-259 | For a version none of whose keys exist at the start, every step - slot write, transaction, delete, cleanup, or a stop - keeps the version record readable. |
| `CveStore.AlwaysReadable` | controller/grpc.go:150-259 | Through any number of such registrations, failures and crashes, the version record always names a store with all slots of one database and no others. |
| `CveStore.PublishedIsRun` | controller/grpc.go:150-259 | The end state of a registration in which nothing fails is reached by a run. |
| `CveStore.RegisteredIsRun` | controller/grpc.go:150-259 | Every registration that writes, with any failures, is a run of the machine. |
| `CveStore.PublishedExactly` | controller/grpc.go:197-252 | Even when nothing fails, the database is there afterwards if and only if none of its slots was there before. |
| `CveStore.StaysReadableExactly` | controller/grpc.go:150-259 | A registration can stop anywhere and leave the version record readable if and only if no key of its version was there when it began. |
| `CveStore.SameVersionLoses` | controller/grpc.go:182-191 | The same version with more entries is written over the recorded store, which the old-key delete then destroys. |
| `CveStore.RetryLoses` | controller/grpc.go:197-252 | A first attempt that stops after one slot: the second one, with nothing failing, loses that slot. |
| `CveStore.RegisteredIsKnown` | controller/grpc.go:182-252 | After a registration that goes through, the record is at least the offer in version and in entries: the offer itself if it is above the record in either, and else store and record are unchanged. |
| `CveStore.RecordChangesExactly` | controller/grpc.go:182-252 | Whatever fails, the record becomes the offer if and only if the offer is above it in version or in entries and neither a put nor the transaction fails. |
| `CveStore.FailureLeavesNoTrace` | controller/grpc.go:197-252 | A failed registration of a fresh version whose cleanup succeeds leaves store and record as they were. |
| `CveStore.WrittenLeavesOnly` | controller/grpc.go:246-252 | If nothing fails, the slots of a fresh version are exactly what is left in the store. |
| `CveStore.Cluster.Delete` | controller/grpc.go:105-111 | Removes the given keys, but for those whose delete fails. |
| `CveStore.FirstFailureMeans` | controller/grpc.go:197-210 | The put that decides is the first that fails; all before it succeeded. |
| `CveStore.Cluster.Register` | controller/grpc.go:150-259 | The outcome as a function of the record and of the answers to puts and transaction, and what is left behind for each; kept exactly when the offer is above the record in neither version nor entries; every outcome that writes is the end of a run. |
| `PolicySlots.DealRules` | controller/cache/policy.go:1215-1220 | Rules are dealt round-robin, rule `idx` to slot `idx % n`. |
| `PolicySlots.DealtAt` | controller/cache/policy.go:1215-1220 | Rule k is at place k / n of slot k mod n. |
| `PolicySlots.SplitWorkloads` | controller/cache/policy.go:1180-1194 | The first rule's addresses are dealt over as many rules as there are slots or addresses, whichever is less. |
| `PolicySlots.PreparePolicySlots` | controller/cache/policy.go:1174-1243 | 16 to 512 slots, the fewest whose contents are all below the size limit, with the workload counts; too large exactly when none fits; an index out of range exactly for no rules at all. |
| `PolicySlots.GetPolicyConfig` | agent/system.go:132-160 | Every index is in bounds if and only if the stored rules have places; then each place holds its rule, and places of unreadable slots are blank. |
| `PolicySlots.DealtComeBack` | agent/system.go:132-160 | Dealt rules come back in their original order, in bounds, each place written once; a missing slot blanks just its own places. |
| `PolicySlots.MergeWlPolicyConfig` | agent/system.go:162-181 | The non-nil addresses of the leading rules in order, then the remaining rules unchanged. |
| `PolicySlots.DealtAddresses` | controller/cache/policy.go:1180-1194 | Dealing and collecting the addresses loses none and adds none. |
| `PolicySlots.PolicyRoundTripExactly` | controller/cache/policy.go:1174-1243 | All rules come back, the first with its non-nil addresses in some order, if and only if the first rule has an address and otherwise the default id and nothing else; without addresses it is gone. |
| `PolicySlots.ReadPolicy` | agent/system.go:183-213 | Reassembly and workload merge as the version record directs, with the exact condition for an index out of range. |
| `PolicySlots.PublishAndRead` | controller/cache/policy.go:1257-1305 | Controller and agent together: the round trip above, unless there are no rules or no slot count fits. |
| `PcapFiles.GetFileList` | agent/sniffer.go:195-244 | The files before the first unreadable one, split by the running maximum; a single file is listed if it exists. |
| `PcapFiles.ListedOnce` | agent/sniffer.go:195-244 | Every readable file is listed, and none twice. |
| `PcapFiles.SortedExactly` | agent/sniffer.go:195-244 | The list is in order of time if and only if the files older than some earlier-numbered one are older than the first file and in order among themselves. |
| `PcapFiles.TurnedBackIsUnsorted` | agent/sniffer.go:195-244 | Timestamps 1, 3, 2 are not listed in order. |
| `PcapFiles.RotationComesOutSorted` | agent/sniffer.go:195-244 | Strictly increasing timestamps, rotated by any amount, come out in order. |

## Left out

- Sockets, JSON, gRPC, gzip, Consul, tickers and timers: only their outcomes appear, as parameters or events.
- RCU maps: the map operations are atomic and the grace period is one step that waits for the readers before it; memory is sequentially consistent.
- Counters in `Aggregation`, `ConnectReport` and `ConnectionMap` are unbounded; their 32-bit wrap-around is not modelled.  `RateLimiter` and `Pagination` state their 32-bit bounds.
- Hash functions, matching of patterns and regular expressions, and compressed sizes are arbitrary functions.
- Non-IPv4 reports, DNS-tunnel checks, client ports, sidecar tagging and the scope and network fields of connections.
- `dp_rx_v3` and `dp_tx_v3` (switched off) and the NFQUEUE path.
- PacketRing.TxRing.Transmit: needs a ring with a power-of-two number of blocks, as `ReleaseFrame`, `ReceiveBatch` and `Receive` do; `RingMask.OpenedRingsWalkRound` shows that the rings opened are such.
- DlpConfig.HandleMessage: the addresses of a message lead to different endpoints.
- The report ticks that time the lists of connections: a list may be taken at any time.
- `dp_ctrl_cfg_dlp`'s rule-id lists are marked and swept by one message alone and follow the same scheme; they are not modelled, nor is a failed allocation.
- GroupCache.CurrentStoreIsFresh: runs exclude a fill that drops a joined member and a service profile loaded by a worker; `UnsafeFillIsStale`, `SilentLoadIsStale` and `FailedLoadForgets` show what happens then.
- GroupCache.QuietIsCurrentOrLate: a late store is not shown to be stale, because it need not be; `OvertakenIsStale` has a run where it is.
- File-monitor and file-access profiles, which share objects with the group cache.
- Lifecycle.EveryRunAlternates: runs exclude a restart with a pid still waited for, unlike `RunAlternatesExactly`.
- NeuVector's own containers, and the refresh event, which writes workloads again and logs nothing.
- The 'secured' log events of a workload are kept in the log but not part of the alternation.
- CveStore.AlwaysReadable: a transaction that reports an error is taken not to have been applied; the cluster lock makes registrations take turns.
- CveStore.SameVersionLoses: versions are compared as numbers.
- CveUpload.HashToSlots: the hash is taken as a natural number, as it is where Go's int has 64 bits.
- Deleting the keys of the previous policy version, and reads during an upgrade from the old key.
