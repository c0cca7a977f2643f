# Verified model of the intrusion-detection pipeline

A Dafny model of the pipeline's stateful core: the flow builder that turns packets into flows and feature
rows, the delivery of alerts over pub/sub and server-sent events, the consumer groups, retries and prediction
jobs on the broker, and the bounded capture queue. `dafny verify dfyconfig.toml` checks all of it.

## The parts

| module | what it is |
|---|---|
| `Options`, `Packets`, `Rounding`, `Statistics` | optional values; packet records and printed flow ids; Python's rounding; sums, means, variances and extremes of real sequences |
| `FlowHistory`, `FlowAccumulator`, `FlowNumbers`, `FlowFacts` | the feature row as a plain function of a packet history; the incremental `Flow` class, proved to report it; what each reported number says of the packets by their positions; what the numbers satisfy together |
| `FlowTable`, `FlowLedger`, `FlowShape`, `FlowKeys`, `FlowAnswers`, `FlowRecency`, `PlainFlows` | one packet as a step of the ordered flow table, and what every run of steps keeps, down to a plain map from endpoint pairs to packets |
| `FlowBuilder`, `FlowDispatch` | the mutable service, proved to take exactly those steps; its message handler under retry |
| `Retry`, `ConsumerGroup`, `ConsumerReads`, `PredictJobs` | the broker protocol: retries, who holds what, what a read delivers, prediction jobs |
| `AlertStore`, `AlertAnswers`, `AlertStream`, `AlertDelivery`, `AlertReconnects` | listing and paging alerts; what one request is answered; one event-stream connection and its reconnections; all interleavings of commits, publishes and a connection; a client over any number of connections |
| `Capture` | the bounded capture queue and its drop metric |

Objects that the program updates in place are classes (`Flow`, `FlowBuilderService`, `LiveCapture`) and its loops
are methods with invariants; each is proved against a plain function or relation of the same module, and the
properties over whole runs are lemmas about that. Protocols between processes are state machines: an event is
enabled or not, applying it gives the next state, and a lemma about runs quantifies over every enabled sequence.
Calls that can fail (publishing, storing, acknowledging, querying) are parameters of the step, and where it
matters one that raises after taking effect is told from one that raises without. Timestamps and sizes are
exact reals, a standard deviation is the non-negative root of its square. Inductions are written out; the
verifier's own guessing of them is turned off.

Where the code does something a reader might not expect, the model does the same:

- the periodic sweep drops flows whose age has reached the timeout, while a packet ends its own flow only when it
  is older than the timeout; what the sweep or the cap drops is never reported;
- the packet whose FIN or RST ends a flow joins no flow;
- a cap of zero or less still admits one flow;
- the feature called FwdPSHFlags is the URG bit;
- an acknowledgement is made inside the try block of the retry loop, so one that raises re-runs the handler;
- the flow table has already absorbed a packet when publishing its flow fails, so the retry finds nothing to
  publish and the flow is lost;
- a flow id is its five fields joined by dashes, so with dashes in addresses two conversations can share an id and
  one flow then takes the packets of both; two flows can also answer to the two ids of one packet;
- a message whose every attempt failed is acknowledged even if its dead letter could not be written, and is then
  lost;
- a packet that is handled again is counted again, and if it carries FIN or RST every other run of it opens a flow
  that the next one reports: one raising acknowledgement can publish a flow that never was;
- when storing "failed" raises too, a refused prediction job stays "pending" until it expires;
- the comment in services/inference/worker.py:118-120 gives duplicate alerts and results as the reason not to retry
  a failed job; where a second attempt is configured a lost acknowledgement makes both all the same
  (`PredictJobs.CompletedTwice`);
- a client that polls with the largest id seen misses a row for good if it is committed after one with a higher id;
- an alert overtaken by a higher id lies behind the cursor of the next connection. The comments in
  shared/broker/pubsub.py:11-16 and services/api/routes/alerts.py:116-118 say that reconnecting picks every miss
  up; `AlertDelivery.OvertakingLosesAlert` shows that it does not, `AlertDelivery.MissedExactly` says what one
  connection misses and `AlertReconnects.ReceivedExactly` what a client ever receives;
- no worker is ever given another worker's pending entries. README.md:36 says a peer takes over;
  `ConsumerGroup.NobodyTakesOver` shows the opposite, and `ConsumerGroup.ReusedNameDoesNotRecover` that the same
  consumer name does not help.

## Model

| member | source | states |
|---|---|---|
| Packets.FromEvent | services/flow_builder/service.py:125-145 | the record of an event has its addresses, ports, protocol and timestamp, the payload size as both sizes and no window, each flag exactly if the event has it and it is true, and the id of its five-tuple and of the reversed one |
| Packets.DigitsReadBack | flow/PacketInfo.py:212-214 | a printed port reads back as the number and contains no dash |
| Packets.FlowIdParsesBack | flow/PacketInfo.py:212-217 | the five-tuple can be read back from the printed flow id if and only if no address holds a dash and no port is negative |
| Packets.FlowIdsIdentifyTuples | flow/PacketInfo.py:212-224 | equal ids mean equal five-tuples, and one packet's id is another's reversed id exactly when the five-tuples are each other's reversal |
| Packets.DashedAddressesCollide | flow/PacketInfo.py:212-214 | a dash inside an address breaks that: two different five-tuples print the same id |
| Rounding.RoundHalfEven | flow/FlowFeature.py:77-78 | a stored duration or gap is within a half of the exact one, ties go to the even neighbour |
| Rounding.RoundIsDetermined | flow/FlowFeature.py:77-78 | no other integer satisfies that |
| Rounding.RoundIsMonotone | flow/FlowFeature.py:107-132 | rounding keeps order, so rounded totals, maxima and minima compare as the exact ones do |
| Statistics.ExtremesAreAttained | flow/Flow.py:136-139 | the maximum and minimum of a list bound every element and are elements |
| Statistics.MeanBetweenExtremes | flow/Flow.py:136-139 | the mean of a list lies between its minimum and its maximum |
| Statistics.VarianceAtMostMeanTimesHeadroom | flow/Flow.py:161-166 | the variance of n non-negative numbers with mean m and maximum M is at most n/(n-1) * m * (M - m) |
| FlowHistory.RaisedBySome | flow/Flow.py:100-109 | a flag counted bit by bit as packets come is set exactly when some packet of the flow carries it |
| FlowAccumulator.Flow.constructor | flow/Flow.py:10-61 | a new flow has seen exactly its first packet, as a forward one, and all its fields agree with that history |
| FlowAccumulator.Flow.New | flow/Flow.py:69-124 | for any packet and direction the history grows by exactly that packet and every incremental field still has its batch value |
| FlowAccumulator.Flow.Terminated | flow/Flow.py:126-223 | the 39 reported numbers are a pure function of the direction-tagged packet history, the one that FlowNumbers spells out packet by packet; asking twice gives the same row |
| FlowAccumulator.Flow.LastSeenIsLast | flow/Flow.py:63-64 | last-seen is the timestamp of the last packet |
| FlowAccumulator.AbsorbClock | flow/Flow.py:111-124 | the clocks always mark the last packets of the flow and of each direction, the first packet, and the open active segment |
| FlowAccumulator.AbsorbGaps | flow/Flow.py:73-123 | the five gap lists are those of the whole, forward and backward packet lists |
| FlowAccumulator.AbsorbActivity | flow/Flow.py:111-119 | a gap above five seconds, and no other, records idle time and closes the active segment |
| FlowAccumulator.AbsorbFeatures | flow/Flow.py:70-109 | maxima, minima, flags and window sizes are those of all packets so far, the rest of the row is left alone |
| FlowAccumulator.TrackBackward | flow/Flow.py:73-82 | the backward length extremes are those of all backward packets, the first one included |
| FlowAccumulator.RaiseFlags | flow/Flow.py:100-109 | each flag is set once some packet carried it and is never cleared |
| FlowAccumulator.Report | flow/Flow.py:126-182 | the row is completed from the packet and gap lists to the row of the history |
| FlowNumbers.ForwardRate | flow/Flow.py:159-159 | the forward packet rate times the seconds from first to last packet is the number of packets marked forward; it is 0 for a span of zero |
| FlowNumbers.BackwardLengths | flow/Flow.py:130-134 | over the backward packets: minimum and maximum bound their payloads and are among them, mean times number is the sum of payloads, squared deviation times number minus one the sum of squares off the mean; the mean segment size is that mean |
| FlowNumbers.PacketLengths | flow/Flow.py:161-166 | the same of all packets' payloads; the variance is the square of the deviation |
| FlowNumbers.PacketSizes | flow/Flow.py:168-169 | the mean packet size times the number of packets is the sum of their sizes |
| FlowNumbers.FlowGaps | flow/Flow.py:126-141 | the flow's gap numbers are those of the microseconds between consecutive packets, mean, minimum and maximum rounded; the duration is their rounded sum, a million times the seconds from first to last packet |
| FlowNumbers.SideGaps | flow/Flow.py:143-157 | each direction's gap numbers are those of the microseconds between consecutive packets of the direction, total, minimum and maximum rounded |
| FlowNumbers.FlagsBySome | flow/Flow.py:100-109 | each flag count is 1 if some packet of the flow carries the flag and else 0 |
| FlowNumbers.ForwardUrgent | flow/Flow.py:93-94 | FwdPSHFlags is 1 exactly if some forward packet carries URG |
| FlowNumbers.FirstWindows | flow/Flow.py:75-78 | the windows are those of the first packet and of the first backward one, -1 without one |
| FlowNumbers.IdleTimes | flow/Flow.py:177-182 | the idle numbers are those of the gaps of more than five seconds, all of them |
| FlowNumbers.ActiveTimes | flow/Flow.py:174-175 | the active minimum is the shortest segment between such gaps that has a positive length, 0 if none has |
| FlowFacts.ReportedVarianceBound | flow/Flow.py:161-166 | for any flow of n >= 2 packets the reported variance v, mean m and tracked maximum M satisfy 0 <= v <= n/(n-1) * m * (M - m) |
| FlowFacts.DeviationIsDetermined | flow/Flow.py:161-166 | a non-negative number is determined by its square, so a reported deviation has one value |
| FlowFacts.DirectionsPartition | flow/Flow.py:70-96 | every packet is in exactly one direction list: lengths and occurrences add up |
| FlowFacts.SideKeepsOrder | flow/Flow.py:70-96 | a direction list holds all packets of the direction in the order of the flow |
| FlowFacts.SideWithinFlow | flow/Flow.py:83-96 | in ordered time each direction begins no earlier and ends no later than the flow |
| FlowFacts.GapsTelescope | flow/Flow.py:83-123 | a gap list has one entry less than its packets, none for none, and sums to the end-to-end span |
| FlowFacts.DurationMatchesMeanGap | flow/Flow.py:126-139 | the rounded duration and (n-1) times the rounded mean gap differ by at most n/2 |
| FlowFacts.TotalsWithinDuration | flow/Flow.py:143-152 | in ordered time the rounded forward and backward totals never exceed the rounded duration |
| FlowFacts.GapStatisticsAreOrdered | flow/Flow.py:136-157 | the rounded minimum, mean and maximum gap of the flow are in order, and a direction's unrounded mean leaves its rounded bounds by at most a half |
| FlowFacts.OpenSegmentStartsAtLastCut | flow/Flow.py:111-119 | the open active segment starts at the last packet that followed a gap above five seconds, else at the first |
| FlowFacts.IdleAreGapsAtCuts | flow/Flow.py:112-115 | the recorded idle times are exactly the packet gaps above five seconds, each of them once and in order |
| FlowFacts.ActiveAreSegmentLengths | flow/Flow.py:112-119 | the recorded active times are exactly the positive lengths of the segments between consecutive such gaps, each of them once and in order |
| FlowFacts.ReportedIdle | flow/Flow.py:177-182 | idle statistics are all zero exactly when no gap exceeded five seconds, else they lie above it in order |
| FlowFacts.SpanIsPartitioned | flow/Flow.py:111-119 | active, idle, open and dropped time always add up to the span of the flow |
| FlowFacts.DroppedCountsBackwardSegments | flow/Flow.py:112-114 | what is dropped are exactly the closed segments that ran backward in time |
| FlowFacts.ActiveIdlePartition | flow/Flow.py:111-124 | active, idle and open time add up to the span if and only if no closed segment ran backward |
| FlowFacts.OrderedTimePartitions | flow/Flow.py:111-124 | in ordered time they always do |
| FlowTable.StalePrefix | services/flow_builder/service.py:103-112 | the sweep drops the leading flows seen at or before the threshold and stops at the first later one |
| FlowLedger.SettleConserves | services/flow_builder/service.py:61-98 | settling a packet moves whole histories between the table and what leaves it and places the packet once |
| FlowLedger.PacketConservation | services/flow_builder/service.py:46-98 | over every run whatever is summed over packets balances: live, evicted and emitted flows and terminators hold each processed packet exactly once |
| FlowLedger.PacketsSeenAddUp | services/flow_builder/service.py:46-98 | the packet counter is the number of processed packets and of live, evicted, emitted and terminating ones |
| FlowLedger.OccurrencesConserved | services/flow_builder/service.py:46-98 | each packet occurs there as often as it was processed |
| FlowLedger.TableStaysBounded | services/flow_builder/service.py:46-64 | over every run the table never holds more than max(max_flows, 1) flows |
| FlowShape.RunKeepsEvery | services/flow_builder/service.py:61-95 | a property of flows that packets can only establish holds of every flow that is or was in the table |
| FlowShape.EveryFlowIsShaped | services/flow_builder/service.py:67-95 | in every flow that is or was in the table consecutive packets are at most the timeout apart and only the first may carry FIN or RST |
| FlowShape.EmittedFlowShape | services/flow_builder/service.py:67-95 | an emitted flow of n packets lasts at most (n-1) timeouts, has no gap above one, and its FIN feature is its opening packet's |
| FlowKeys.SameConversation | flow/PacketInfo.py:212-224 | two addressed packets belong to one unordered endpoint pair exactly when one carries the other's id or its reversal |
| FlowKeys.StampedTellExactly | flow/PacketInfo.py:212-224 | printed ids never miss a packet's own endpoint pair, whatever the addresses; they tell pairs apart unless two pairs share an id |
| FlowKeys.LookupFindsConversation | services/flow_builder/service.py:53-59 | where the flows' ids tell the packet's endpoint pair, looking up under both ids finds the flow of that pair, and none only if there is none |
| FlowKeys.EveryFlowIsWellFiled | services/flow_builder/service.py:67-95 | every flow that is or was in the table is filed under its opener's id; its forward packets carry that id, its backward ones carry it reversed and not as their own |
| FlowKeys.SettleKeepsOnePerConversation | services/flow_builder/service.py:53-97 | settling a packet never leaves two flows of one endpoint pair |
| FlowKeys.RunKeepsOnePerConversation | services/flow_builder/service.py:53-97 | no table reached by packets whose ids tell endpoint pairs apart holds two flows of one pair |
| FlowKeys.KeysApartExactly | services/flow_builder/service.py:53-97 | for any packets and room for two flows: no run over them files a key twice or beside its reversal, if and only if whenever one packet's id is another's reversed id the reverse holds too or their ids are equal |
| FlowKeys.KeysStayApart | services/flow_builder/service.py:53-97 | so no run over addressed packets does |
| FlowKeys.DashesFileBesideReversal | services/flow_builder/service.py:53-64 | with dashes in addresses ids can be reversals one way only, and a run of two packets files a key beside its reversal |
| FlowAnswers.OneAnswerExactly | services/flow_builder/service.py:53-97 | for any packets: no run over them has two flows under the two ids of a packet, if and only if there is room for one flow only or packets that carry one of the two ids carry the other one reversed |
| FlowAnswers.MutualIdsAnswerOnce | services/flow_builder/service.py:53-97 | which mutual ids imply |
| FlowRecency.SweepIsScan | services/flow_builder/service.py:103-112 | the early break sweeps what a full scan would if and only if no stale flow stands behind a fresh one |
| FlowRecency.RunKeepsRecency | services/flow_builder/service.py:90-97 | with non-decreasing timestamps opening, touching and replacing flows keep the table sorted by last-seen |
| FlowRecency.ShortcutsAgreeWithScans | services/flow_builder/service.py:100-123 | in every run with non-decreasing timestamps the early-break sweep equals the full scan, the popped head was seen no later than any other flow, and a packet that triggers the sweep never emits a timed-out flow |
| FlowRecency.ThousandthLeavesFresh | services/flow_builder/service.py:46-48 | over every run in time order with a positive timeout: after each packet whose number is a multiple of 1000 every tracked flow was seen later than a timeout ago |
| FlowRecency.OthersEvictHeadOnly | services/flow_builder/service.py:46-65 | on every other packet of any run the only flow evicted is the head of a full table that has no flow under the packet's ids |
| FlowRecency.LateClockHidesStaleFlow | services/flow_builder/service.py:109-112 | a run out of time order whose thousandth packet triggers a sweep that misses a stale flow a scan would drop |
| PlainFlows.SettlingIsPlain | services/flow_builder/service.py:67-98 | a packet of a tracked endpoint pair ends, replaces or extends that pair's packets in the plain map and touches no other pair |
| PlainFlows.LiveIsSweptSome | services/flow_builder/service.py:100-116 | whatever the timestamps, a due sweep takes only pairs seen at or before the threshold from the plain map |
| PlainFlows.PopGivesUpOne | services/flow_builder/service.py:61-65 | a full map gives up one pair for a new one and any other map gives up none |
| PlainFlows.ProcessIsPlain | services/flow_builder/service.py:43-123 | one packet, sweep included, is one step of the plain map, whatever the timestamps |
| PlainFlows.EveryStepRefinesPlainMap | services/flow_builder/service.py:43-123 | for packets with any timestamps whose ids tell endpoint pairs apart every step of every run is a step of a plain map from unordered endpoint pairs to packets: a sweep on each thousandth packet drops only stale pairs, a full map gives up one pair, one lookup finds the packet's pair, and FIN, RST or a gap above the timeout ends it |
| PlainFlows.PlainMapExactly | services/flow_builder/service.py:43-123 | for any set of packets and any configuration every step of every run over the set is such a step, if and only if each packet carries another one's id exactly when they share an endpoint pair |
| PlainFlows.AddressedStepsArePlain | services/flow_builder/service.py:43-123 | so with dash-free addresses every step is |
| PlainFlows.DashesMergeConversations | services/flow_builder/service.py:53-59 | two packets of different endpoint pairs that share an id end up in one flow, which is no such step |
| PlainFlows.EveryStepScansPlainMap | services/flow_builder/service.py:43-123 | in time order that step drops every stale pair and gives up one seen least recently |
| PlainFlows.ScannedMapExactly | services/flow_builder/service.py:43-123 | for any set of packets every step of every run in time order does so, if and only if ids tell the pairs of later packets from those of earlier ones |
| PlainFlows.RowsFollowFromPackets | services/flow_builder/service.py:67-95 | key, directions and feature row of every emitted flow follow from its packets alone |
| FlowBuilder.FlowBuilderService.constructor | services/flow_builder/service.py:36-41 | the service starts with an empty table and no packets seen |
| FlowBuilder.FlowBuilderService.ProcessPacket | services/flow_builder/service.py:43-98 | the mutable service takes exactly the step of the table and returns one event for each flow the step emits, with its key, the feature row of its history and the addresses, ports, protocol and wireless field of the closing packet |
| FlowBuilder.MakeRoom | services/flow_builder/service.py:62-63 | a full table gives up its head, any other table nothing |
| FlowBuilder.SettleNew | services/flow_builder/service.py:61-65 | a packet of no tracked flow opens one, after a full table gave up its head, and reports nothing |
| FlowBuilder.SettleActive | services/flow_builder/service.py:67-98 | a packet of a tracked flow ends it, replaces it or joins it, and reports it exactly when it ends |
| FlowBuilder.EndFlow | services/flow_builder/service.py:72-93 | the reported flow leaves the table and a packet that came too late opens the next one |
| FlowBuilder.TouchFlow | services/flow_builder/service.py:95-98 | the flow gets the packet in the direction of its key and moves to the end; every other flow is untouched |
| FlowBuilder.CloseFlow | services/flow_builder/service.py:73-90 | the event carries the row of the closed flow, whose slot alone disappears |
| FlowBuilder.OpenFlow | services/flow_builder/service.py:64-64 | the new flow is filed last under the packet's id |
| FlowBuilder.StaleKeys | services/flow_builder/service.py:103-112 | the collected keys are those of the stale prefix |
| FlowBuilder.PopAll | services/flow_builder/service.py:113-114 | popping the collected keys one by one leaves exactly the rest of the table |
| FlowBuilder.EvictStale | services/flow_builder/service.py:100-116 | the sweep leaves the table from its first fresh flow on |
| FlowBuilder.EvictOldest | services/flow_builder/service.py:118-123 | the head leaves, an empty table stays empty |
| FlowBuilder.SweepWhenDue | services/flow_builder/service.py:46-48 | the packet whose number is a multiple of 1000 sweeps the leading flows seen at or before now minus the timeout, any other packet sweeps none |
| FlowDispatch.Dispatch | services/flow_builder/worker.py:44-49 | a run of the handler advances the table and publishes its event unless the publish raises |
| FlowDispatch.PublishEach | services/flow_builder/worker.py:48-49 | events are published in order up to the first publish that raises |
| FlowDispatch.RunsUntilAcked | services/flow_builder/worker.py:44-61 | the handler runs on a message until a run that has nothing to publish or publishes it is acknowledged, and stops there |
| FlowDispatch.RerunsRepeatOwn | services/flow_builder/worker.py:44-49 | where two flows cannot answer to the packet, run again on it the handler reports nothing, or, for a packet with FIN or RST, the flow that the run before opened for it, and never on two runs in a row |
| FlowDispatch.RerunsRepeatOwnExactly | services/flow_builder/worker.py:44-49 | with a positive timeout and for any set of packets that is so over all runs, if and only if no packet of the set with FIN or RST can have two flows answer to it |
| FlowDispatch.DashesEndTwoFlows | services/flow_builder/worker.py:44-49 | with dashes in addresses a message handled twice can report two tracked flows |
| FlowDispatch.EveryOtherRunReoffers | services/flow_builder/worker.py:44-49 | with a positive timeout the first run's report decides what every later run reports: that flow on every other run, from the second on if the first had nothing to report |
| FlowDispatch.RerunsAreCounted | services/flow_builder/worker.py:44-49 | every run counts the packet again |
| FlowDispatch.PublishedUnderRetry | services/flow_builder/worker.py:44-61 | under retry, with any publishes and acknowledgements, a flow that the packet ended is published exactly when its first publish reached the broker; all else published are flows the packet itself opened, one for each later run whose report reached the broker |
| FlowDispatch.RetryAddsNothingUnlessReoffered | services/flow_builder/worker.py:44-61 | with a positive timeout retrying adds a flow exactly when the packet carries FIN or RST and a publish reaches the broker on an even run, if the packet closed no tracked flow, or on a later odd run, if it did |
| FlowDispatch.PublishedIffFirstPublishSucceeds | services/flow_builder/worker.py:44-61 | when acknowledgements return, a retry neither makes up for a publish that did not reach the broker nor adds a flow |
| FlowDispatch.RaisingAckPublishesPhantom | services/flow_builder/worker.py:44-61 | one acknowledgement that raises after an untracked FIN or RST packet publishes a flow that a single run does not report |
| FlowDispatch.PhantomIsPublished | services/flow_builder/worker.py:44-61 | the two runs of the handler on any FIN or RST packet that comes first, by which that happens |
| FlowDispatch.LostEventLooksHandled | services/flow_builder/worker.py:44-61 | after a first publish that did not reach the broker the ended flow is never published; if the next acknowledgement returns, the message counts as handled after two runs and nothing is published |
| Retry.ProcessWithRetries | shared/broker/retry.py:44-81 | the handler runs up to the first attempt that completes or max(max_retries, 1) times, one acknowledgement follows, an attempted dead letter precedes it exactly when every attempt failed; between two runs there is one sleep, the one after the k-th failure of min(base*2^(k-1), cap), and total sleep is at most min((n-1)*cap, base*(2^(n-1)-1)) |
| Retry.Attempt | shared/broker/retry.py:48-52 | an attempt runs the handler and completes only if handler and acknowledgement both return; it acknowledges only after the handler did and does not sleep |
| Retry.Backoff | shared/broker/retry.py:62-64 | after the k-th of n failures exactly the delay for k is slept, and nothing after the last one |
| Retry.DelayDoubles | shared/broker/retry.py:62-63 | the first delay is the base and each further one twice the one before, all cut off at the cap |
| Retry.RunsStopAtFirstSuccess | shared/broker/retry.py:49-53 | a handled message is never handled again if and only if the acknowledgement of the first success returns |
| Retry.HandledYetDeadLettered | shared/broker/retry.py:49-73 | a message is in the dead-letter stream although the handler processed it if and only if its dead letter was written, the handler succeeded and no acknowledgement of a success ever returned |
| Retry.LostExactly | shared/broker/redis_streams.py:168-178 | a message is acknowledged without having been handled or dead-lettered if and only if every attempt fails, the dead letter cannot be written and the last acknowledgement returns |
| AlertStore.PageLength | services/api/routes/alerts.py:63-81 | a page is as long as the limit and the selection allow |
| AlertStore.OnPageIffRankedIn | services/api/routes/alerts.py:63-81 | a row is on the page exactly when fewer than limit rows come before it |
| AlertStore.PagesJoin | services/api/routes/alerts.py:66-79 | a page of m rows from a cursor continues a page of n rows to one of n + m |
| AlertAnswers.AnsweredAsAsked | services/api/routes/alerts.py:41-81 | a page answers a request if and only if limit (50 unless given) is 1 to 500, since_id at least 0, before_id at least 1, the label at most 32 long and not both cursors given, and the page holds, in the order for its cursor, rows above or below the cursor with the label, leaving one out only if it is full of rows before it |
| AlertAnswers.LabelFilters | services/api/routes/alerts.py:63-65 | a page for a risk label holds only rows with that label, and is a page for the request exactly when it answers the same request without a label on the rows with the label |
| AlertAnswers.ExactlyOneAnswer | services/api/routes/alerts.py:41-81 | every valid request has exactly one answer, and no other request has any |
| AlertStore.PollingEnumerates | services/api/routes/alerts.py:66-69 | polling with the largest id seen shows every matching row above the start once, in ascending order: k polls come to one page of k times the limit |
| AlertStore.PollingEndsWhenAllIsShown | services/api/routes/alerts.py:66-69 | the k-th poll is empty exactly when the polls before it showed everything, so n rows take ceil(n/limit) non-empty pages |
| AlertStore.ShownIffCommittedInTime | services/api/routes/alerts.py:66-69 | while rows are committed between the polls in any order of ids, a matching row is shown if and only if it was committed when the poll that moved the cursor past its id ran |
| AlertStore.MissedForGood | services/api/routes/alerts.py:66-69 | a row committed after the cursor has passed its id is never shown |
| AlertStore.LateCommitIsMissed | services/api/routes/alerts.py:66-69 | two polls and a late commit after which a committed row below the cursor is missing |
| AlertStore.OrderedCommitsAreShown | services/api/routes/alerts.py:66-69 | if rows are committed in id order polling shows every matching row up to its cursor, though the table grows |
| AlertStore.ScrollingEnumerates | services/api/routes/alerts.py:70-79 | if rows were created in id order, the default page and the pages before its last row enumerate all matching rows by descending id |
| AlertStore.ScrollingExactly | services/api/routes/alerts.py:70-79 | whatever the creation times, scrolling misses nothing if and only if every row the first page left out has an id below its last row's, and repeats nothing if and only if no row of it has |
| AlertStore.SkewedClockHidesRow | services/api/routes/alerts.py:70-77 | when a later id carries an earlier creation time, scrolling can hide it |
| AlertStream.CatchUp | services/api/routes/alerts.py:169-172 | the missed rows are written in order, each with its own id and body, and the cursor ends at the last of them |
| AlertStream.Forward | services/api/routes/alerts.py:179-193 | one message leaves the connection in the state that its messages so far call for, and after a timeout or a message without data the last sign of life is less than 15 seconds old |
| AlertStream.Stream | services/api/routes/alerts.py:164-195 | over any messages the frames begin with the opening comment and the rows; frame ids never go back, alert ids strictly ascend above the start, the last frame id is the cursor, keep-alives are sent only on timeouts and messages without data and after 15 seconds of silence, and exactly the rows and the messages that pass are written |
| AlertStream.ForwardedIffArrivesHighest | services/api/routes/alerts.py:184-192 | the channel gets an alert through exactly when one of its messages arrives with the highest id so far |
| AlertStream.ForwardsMessages | services/api/routes/alerts.py:179-192 | the live frames are, one for one and in order, the JSON objects without a usable id or with an id above the start, all rows and all earlier messages, each with its own id and body |
| AlertStream.LastBeatIsLast | services/api/routes/alerts.py:180-193 | silence is counted from the last keep-alive or forwarded message, or from the beginning |
| AlertStream.ReconnectionsStayOrdered | services/api/routes/alerts.py:206-213 | chaining reconnections with the last frame id keeps frame ids from going back and alert ids strictly ascending |
| AlertStream.PassedIsNeverRecovered | services/api/routes/alerts.py:206-213 | what a connection's cursor has passed is not forwarded by any later connection |
| AlertDelivery.NothingShownTwice | services/api/routes/alerts.py:164-193 | in every interleaving of commits, publishes, query, subscription and messages no alert is shown twice |
| AlertDelivery.BacklogExactly | services/api/routes/alerts.py:153-161 | the catch-up query shows exactly what was committed by then above the start with fewer than 100 such rows before it |
| AlertDelivery.QueriedByEvents | services/api/routes/alerts.py:153-161 | the query was asked of what had been committed when it ran |
| AlertDelivery.ChannelInOrder | shared/broker/pubsub.py:84-102 | over every run what the connection has heard, followed by what waits, is exactly the alerts of the publishes that took effect since it subscribed, in the order of those publishes |
| AlertDelivery.OvertakenExactly | services/api/routes/alerts.py:186-189 | an alert that was heard is overtaken if and only if the backlog or an earlier publish since the subscription had a higher id |
| AlertDelivery.OrderedPublishesAreShown | services/api/routes/alerts.py:179-192 | when alerts are published in the order of their ids, and committed in that order unless the backlog is empty, a connection that has heard everything has shown every alert above its start published since it subscribed |
| AlertDelivery.ShownAreAlerts | services/api/routes/alerts.py:169-192 | every data frame shown is of a committed alert, with its id on the frame and its body |
| AlertDelivery.MissedExactly | services/api/routes/alerts.py:164-193 | an alert is missed if and only if the query did not show it (failed, ran before the commit, or was full) and the channel did not either: no publish of it took effect after the subscription, or the backlog or an earlier publish since then had a higher id |
| AlertDelivery.OvertakenStaysLost | services/api/routes/alerts.py:186-189 | an overtaken alert lies behind the id the client reconnects with and is left out of the next catch-up |
| AlertDelivery.OvertakingLosesAlert | services/api/routes/alerts.py:164-193 | of any two alerts above the start there is a run in which the lower one is committed and published last, a connection that hears everything does not show it, and the next catch-up leaves it out |
| AlertDelivery.RunKeepsInv | services/inference/repository.py:63-74 | every published alert was committed before, and its publish failed, came before the subscription, or put it on the channel once |
| AlertReconnects.ReceivedExactly | services/api/routes/alerts.py:153-195 | over any number of connections, dropped at any moment with any frames lost on the way, a client has received a committed alert if and only if some connection moved it past the alert by a catch-up query that ran after the commit or by the alert's own message |
| AlertReconnects.LostForGood | services/api/routes/alerts.py:206-213 | an alert that a connection moved the client past otherwise is never received, however often it reconnects |
| AlertReconnects.GotExactly | services/api/routes/alerts.py:164-195 | what one connection of that chain gave the client lies between the id it was opened with and the id the client came back with, and was caught in passing |
| ConsumerGroup.HandOut | shared/broker/redis_streams.py:121-138 | every entry of a read is handed to the worker or acknowledged and dropped, once and in order, and dropped exactly if it has no readable payload |
| ConsumerGroup.DeliveredAtMostOnce | shared/broker/redis_streams.py:108-120 | each entry is delivered to at most one worker, once, and ids of a stream strictly ascend; ConsumerReads says that none is left out |
| ConsumerReads.RunSkipsNothing | shared/broker/redis_streams.py:108-118 | over every run each stored entry at or below a stream's last delivered id was delivered |
| ConsumerReads.ReadTakesOldest | shared/broker/redis_streams.py:108-118 | over every run a read hands the worker, of each configured stream, exactly the first `count` stored entries above the last delivered id, or all if there are fewer, oldest first, and moves that id to the last of them |
| ConsumerReads.LogHoldsRest | shared/broker/redis_streams.py:59-88 | a stream's log is what has been published since its group exists, in order, without the oldest entries that were trimmed |
| ConsumerReads.DeliveredOrToCome | shared/broker/redis_streams.py:81-118 | an entry published since the group exists and not trimmed is delivered if and only if it is not above the last delivered id, where the next reads begin |
| ConsumerGroup.LiveExactly | shared/broker/redis_streams.py:104-118 | a worker reads and handles from its beginning until it stops or crashes, and never again |
| ConsumerGroup.DeliveredIsPendingOrAcked | shared/broker/redis_streams.py:114-141 | a delivered entry is pending or acknowledged, never both |
| ConsumerGroup.PendingIsUnhandledRest | shared/broker/redis_streams.py:121-141 | what one incarnation of a worker has pending, live or gone, is exactly the unhandled suffix of its last read |
| ConsumerGroup.PendingUnderName | shared/broker/redis_streams.py:111-120 | what is pending under a consumer name is the unhandled rest of all its incarnations together |
| ConsumerGroup.GracefulStopStrands | services/inference/worker.py:191-203 | a graceful stop strands fewer entries than count times the number of different streams |
| ConsumerGroup.NobodyTakesOver | shared/broker/redis_streams.py:111-120 | an entry pending for a worker that is gone stays pending for it for good |
| ConsumerGroup.ReusedNameDoesNotRecover | shared/broker/redis_streams.py:111-120 | a later worker with the same consumer name is not given it either |
| PredictJobs.Predict | services/api/routes/predict.py:82-113 | 202 is answered exactly when both the store of pending and the publish returned, else 500; who has the job queued and what a poll then finds follow from which calls took effect: nothing, pending or failed |
| PredictJobs.RefuseJob | services/api/routes/predict.py:89-104 | after a raising publish failed is cached if that store takes effect, else pending stays |
| PredictJobs.RefusedCanStayPending | services/api/routes/predict.py:89-104 | a refused job that was not queued and whose failure was not stored is never answered with a terminal status, whatever happens later |
| PredictJobs.LeftJobIsSettled | shared/broker/retry.py:47-75 | once a worker has acknowledged, given up or crashed over a job that the API is done with, every later poll finds what was cached then or, after that has expired, nothing |
| PredictJobs.ExpiredIsGone | services/api/routes/predict.py:116-131 | when the result of a job that nobody works on expires, every later poll is answered not found |
| PredictJobs.HandledWithinBudget | shared/broker/retry.py:44-48 | over every run, with any faults, each job is taken from the queue at most once and no worker is beyond attempt max(max_retries, 1) of it |
| PredictJobs.HandlePredictJob | services/inference/worker.py:61-129 | a payload that is no job raises and changes nothing; else the handler commits a row before it caches completed with that row's id, caches failed when anything raises, and returns exactly when a terminal result has been cached without an exception |
| PredictJobs.TerminalNeverRevertsToPending | services/api/routes/predict.py:82-103 | over all interleavings, retries, expiries and partial failures no poll sees pending after a poll saw a terminal status |
| PredictJobs.CompletedIsCommitted | services/inference/worker.py:77-105 | every completed result, cached or polled, names a committed row with the job's flow id |
| PredictJobs.TerminalPollsAgreeExactly | shared/broker/retry.py:44-64 | for any set of faults and any configured number of attempts: all terminal polls of a job agree in every run with only those faults, if and only if the set holds no publish or store of a completed result that raises after taking effect and, unless there is a single attempt, no such store of a failed result and no lost acknowledgement |
| PredictJobs.FailedThenCompleted | services/api/routes/predict.py:87-101 | a publish that raises after storing the message lets a client see failed and then completed |
| PredictJobs.CompletedThenFailed | services/inference/worker.py:85-129 | a store of completed that raises after its effect lets a client see completed and then failed |
| PredictJobs.RetriedAfterFailed | services/inference/worker.py:116-129 | with two attempts or more a store of failed that raises after its effect lets a client see failed and then completed |
| PredictJobs.CompletedTwice | services/inference/worker.py:77-105 | with two attempts or more a lost acknowledgement lets a client see two completed results with different alert ids |
| Capture.PacketsConserved | services/ingestion/sniffer.py:37-68 | arrivals are published, being published, waiting or dropped, nothing is reordered, at most 10 000 wait |
| Capture.DropsReported | services/ingestion/run_sniffer.py:137-154 | over all restarts the drop counter is the sum of the drops last observed, never more than were dropped, and the capture counter is the number of published packets; when a publish is over the drop counter has everything the current session dropped, also during the publish |
| Capture.WarningsKeepUp | services/ingestion/run_sniffer.py:149-154 | over all restarts there is at most one warning for a thousand drops, and after every publish fewer than a thousand drops of the session are newer than its last warning |
| Capture.LiveCapture.constructor | services/ingestion/sniffer.py:29-33 | the adapter starts with an empty queue and no drops |
| Capture.LiveCapture.Enqueue | services/ingestion/sniffer.py:45-50 | an arriving packet joins the queue, or is dropped and counted when 10 000 packets wait |
| Capture.LiveCapture.Take | services/ingestion/run_sniffer.py:139-140 | the loop takes the first waiting packet to publish it |
| Capture.LiveCapture.Observe | services/ingestion/run_sniffer.py:140-154 | after the publish the counters catch up with all drops so far; a publish that raised starts a new session with an empty queue and leaves the counters as they are |

## Left out

- Flow features and packet records are values: a `PacketInfo` is filled once and never changed, and the fields of `Flow` are grouped into four records that its methods overwrite.
- The 39 numbers are the fields of a record, which read left to right are in the order of the reported list. The entries after them that `terminated` appends are cut off by the service.
- Square roots: a reported standard deviation is the non-negative root of its variance. Floating-point error: arithmetic is exact.
- Process lookup in packet records, and the header size, which the service sets to zero.
- FlowBuilder.FlowBuilderService.ProcessPacket: the value of the event's wireless field is any text, standing for the dictionary passed through.
- `_dispatch` on a payload that is no packet event: the handler raises before it touches the table, so each attempt fails alike.
- FlowDispatch.PublishedUnderRetry: asks that no second flow can answer to the packet, without which a re-run reports that flow (FlowDispatch.DashesEndTwoFlows), and for a timeout of at least zero; with a negative one every packet is late for its own flow.
- FlowDispatch.EveryOtherRunReoffers: asks for a positive timeout; with a timeout of zero a sweep during a retry can take the packet's own flow, and the run reports nothing instead.
- PlainFlows.EveryStepRefinesPlainMap: asks that ids tell endpoint pairs apart; PlainFlows.PlainMapExactly says that this is all it takes, PlainFlows.DashesMergeConversations shows packets for which it fails.
- PlainFlows.EveryStepScansPlainMap: asks for packets in time order, without which the sweep can leave stale flows (FlowRecency.LateClockHidesStaleFlow).
- Retry.ProcessWithRetries: takes non-negative backoff times, which sleeping demands; exceptions that are not `Exception` (interrupts) pass through.
- ConsumerGroup.GracefulStopStrands: a worker that is interrupted can strand a whole read.
- ConsumerReads.DeliveredOrToCome: how many of the oldest entries storing trims is up to the broker; an entry can be trimmed before anybody has read it. The order in which a read returns the streams is that of the configuration.
- Protocols between processes (`ConsumerGroup`, `PredictJobs`, `AlertDelivery`) are state machines on values: their steps are the broker, cache and database operations that the code performs one after another, so which operation runs next is in the enabling conditions; `PredictJobs.Predict`, `PredictJobs.HandlePredictJob` and `ConsumerGroup.HandOut` are the loops and branches behind some of them. In `ConsumerGroup` a malformed entry that is acknowledged and dropped is a handled one, and an acknowledgement that raises out of the loop is a crash.
- Redis, the database and the packet library themselves: only the log, pending entries, keys, committed rows and event order that the code relies on. JSON is opaque.
- AlertDelivery.MissedExactly: one connection at a time; AlertReconnects.ReceivedExactly is about all of a client's. The query is one atomic read.
- AlertStore: reading numbers out of the query string; a value that is no number counts as missing, as the framework treats it.
- Time limits of cached results: a result may expire at any step. Metrics other than the drop counter, logging and tracing.
- The replay and tcpdump adapters, packet conversion, and interface checks.
- Flask wiring, tokens, rate limits, error envelopes, nonces, retention, statistics endpoints, risk labels and the machine-learning models.
