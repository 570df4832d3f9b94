# A verified model of the deep packet analyzer

The repository reads a capture file, tracks flows, recognises applications by TLS server name, HTTP
host or DNS question, and drops what its rules name. It does so in two engines: the multi-threaded
one in `src/dpi_mt.cpp`, and the modular one in `src/dpi_engine.cpp`, `src/load_balancer.cpp`,
`src/fast_path.cpp` and `src/connection_tracker.cpp`. Both share the parsers, the hash and the idea
of pinning a flow to one worker. This project models both and proves what the program relies on.
`dafny verify dfyconfig.toml` checks it.

## How it is built

* **Shared values.** `Types` (tuples, canonical form, the 64-bit hash), `Text`, `Bytes`, `Sums`,
  `AppNames`, `IpText`.
* **Parsers and their encoders.** `Frames` (Ethernet, IPv4, TCP, UDP, and both readers), `TlsSni`,
  `Dns`, `HttpHost`. Each extractor is a method with the original's loops, proved against a function,
  and that function is proved against an independent encoder, the repository's own generator included.
* **The multi-threaded engine.** `MtStreams` and `MtFlows` say what one worker does with a stream;
  `MtWorker` and `TsQueue` are the objects that do it; `MtPipeline` is the whole engine as a state
  machine whose runs are arbitrary schedules of its threads; `MtControl`, `MtRefinement`,
  `MtConservation` and `MtLiveness` prove its invariants, its refinement of a sequential pass, its
  bookkeeping, and that every fair run ends; `Routing` is the arithmetic of two-level hashing;
  `EndToEnd` joins frames, parser, classifier, rules and pipeline.
* **The modular engine.** `Connections` and `FlowHistory` are one connection's record and its history;
  `ConnTracker` and `FastPath` are the objects; `Histories`, `Lru`, `Sharding` and `GlobalTable` are
  whole tables; `EngineStop` is its stop sequence; `Rules` and `RuleFile` are the rule manager and
  its file.

A thread's step is a function of the state, and a scheduled thread that has to wait leaves the state
unchanged; a timed wait that times out is a step that finds nothing. `std::hash` is an arbitrary
function of each field, `sniToAppType` an arbitrary function of the name, clock readings are
parameters, and an iteration over an unordered container takes an arbitrary order. Where C++ leaves
the result undefined (an address text whose octet or shift overflows), the model has no result.

## What the proofs found

* Blocking is not final in the modular engine: TCP flags are taken in before the blocked test, so a
  packet that closes the connection lifts the block (`FlowHistory.ClosingLiftsBlock`).
  `FlowHistory.DroppedIffHeld` is the exact condition.
* The modular engine clears its flag before it joins its fast paths, so its output thread may leave
  early. Whatever it is doing when `stop` is called: `stop` can hang for good exactly when the workers
  have more left to forward than the output queue holds (`EngineStop.StopCanHangIffBacklogOverflows`),
  and forwarded packets can be lost exactly when they have anything left to forward
  (`EngineStop.StopCanLoseIffBacklog`). The multi-threaded engine has neither problem.
* `README.md` of the repository routes by "hash(5-tuple) % Workers". The code takes the same hash
  twice, modulo two counts, and so reaches only the least common multiple of the counts many workers
  (`Routing.LcmWorkersAreReachable`); with the default of two balancers and two workers each, half of
  the workers stay idle (`Routing.OthersStayIdle`).
* Eviction can take the record that was just entered when clock readings coincide
  (`ConnTracker.NewRecordMayBeEvicted` says exactly when, `FastPath.CoincidingReadingsAreUnsafe` gives
  two packets); the fast path would then use a dangling pointer. `FastPath` requires no more than that
  this cannot happen, and a clock that moves on between packets is enough for it
  (`FastPath.TickingKeepsRecordsSafe`).
* A saved rule file restores the rules exactly if no domain is empty, has a line end, or begins like a
  section header (`RuleFile.FileRoundTrip`).
* A comment in the TLS extractor promises to parse truncated hellos anyway. A hello whose only record
  is cut short never gets that far, because the record's length is checked first
  (`TlsSni.TruncatedHelloIsRejected`). A hello that goes on in another record does, and its host is
  found exactly when its server_name extension ends within the first one (`TlsSni.SplitHelloIsRead`).
* The query generator takes empty labels and labels of up to 255 bytes, the reader stops at either
  (`Dns.QueryRoundTrip` is the exact condition).
* Exact domain rules heed letter case, patterns do not (`Rules.BlockedIffListedOrCovered`).

## Model

| member | source | states |
|---|---|---|
| Types.CanonicalIdentifiesFlow | src/connection_tracker.cpp:10-15 | two tuples have the same canonical form exactly when they are equal or the two directions of one flow |
| Types.CanonicalForgetsDirection | src/connection_tracker.cpp:10-15 | two tuples have the same canonical form exactly when they share the protocol and the two endpoints, in whatever order |
| Types.FiveTupleHash | include/types.h:41-65 | the swap-and-fold steps give the hash of the flow, the same for the reversed tuple |
| Types.HashIsSymmetric | include/types.h:33-64 | hash of a tuple, of its reverse and of its canonical form agree, whatever `std::hash` is |
| Types.HashOfSamples | include/types.h:41-65 | six worked hashes: the smaller endpoint first, and each of the five fields changes the outcome |
| AppNames.NamesAreDistinct | src/types.cpp:32-59 | two applications print alike only when they are the same |
| AppNames.FindApp | src/rule_manager.cpp:302-309 | the counting search finds the application exactly when one has that name |
| AppNames.AppRoundTrip | src/types.cpp:32-59 | every printed name is read back |
| AppNames.EngineNamesAreRead | src/types.cpp:32-59 | the names of the applications that the engines themselves assign |
| IpText.ParseIPLoop | src/rule_manager.cpp:13-30 | the character loop computes the address of the text, or none where C++ leaves it undefined |
| IpText.ParseDotted | src/rule_manager.cpp:13-39 | parsing dotted octets from any point of the loop adds their little-endian number at the current shift |
| IpText.FourOctets | src/dpi_engine.cpp:229-247 | four printed octets are read back as the number whose bytes in memory they are |
| IpText.AddressRoundTrip | src/rule_manager.cpp:13-39 | parseIP(ipToString(x)) = x for all 32-bit x |
| IpText.BytesOfAddress | src/packet_parser.cpp:113-121 | an address copied from the frame prints its bytes in frame order |
| IpText.PrintingIsInjective | src/packet_parser.cpp:202-219 | two addresses print alike exactly when they are equal |
| Frames.ParsedPacket.Parse | src/packet_parser.cpp:17-60 | whatever the record held, afterwards it holds exactly what the frame says, or parse returned false |
| Frames.ParsedPacket.ParseEthernet | src/packet_parser.cpp:62-82 | needs 14 bytes and takes the type from bytes 12 and 13 |
| Frames.ParsedPacket.ParseIPv4 | src/packet_parser.cpp:84-127 | accepts version 4 with a header that is long enough and present, and moves on by its IHL |
| Frames.ParsedPacket.ParseTCP | src/packet_parser.cpp:129-167 | accepts a data offset of at least 20 bytes that is present, and moves on by it |
| Frames.ParsedPacket.ParseUDP | src/packet_parser.cpp:169-190 | needs eight bytes and moves on by them |
| Frames.KeptMeansAccepted | src/dpi_mt.cpp:438-439 | the readers' test on the parsed record keeps exactly the accepted TCP and UDP frames |
| Frames.ReadTuple | src/dpi_mt.cpp:449-464 | printing the addresses and parsing them back leaves the frame's own tuple |
| Frames.WalkHeaders | src/dpi_mt.cpp:466-484 | the reader's second walk over the headers stays in bounds and lands on the parser's payload |
| Frames.MakePacket | src/dpi_mt.cpp:441-484 | the packet's tuple, flags and payload are those of the frame's bytes, and agree with the parser |
| Frames.JobOffsets | src/dpi_engine.cpp:258-281 | the modular engine's walk, with its own guards, lands there too |
| Frames.CreatePacketJob | src/dpi_engine.cpp:220-284 | the job's tuple, offsets and payload are those of the frame's bytes, and agree with the parser |
| Frames.FrameRoundTrip | src/packet_parser.cpp:17-190 | every well-formed frame, with any IP and TCP options, is accepted and read back: tuple, flags, payload |
| Frames.FrameIsParsed | src/packet_parser.cpp:17-190 | every field of the parsed record of a well-formed frame is the frame's, its addresses printed byte by byte |
| Frames.AcceptedFrameIsEncoded | src/packet_parser.cpp:17-190 | re-encoding what was read from an accepted frame gives the frame back |
| Frames.AcceptedIffEncoding | src/packet_parser.cpp:62-190 | the accepted frames are exactly the encodings of well-formed ones |
| Frames.AcceptedInBytes | src/packet_parser.cpp:62-190 | which bytes make an accepted frame: type, version, header words, protocol numbers and lengths |
| TlsSni.SkipToExtensions | src/sni_extractor.cpp:45-84 | skipping the fixed and counted fields stays in bounds and finds where the extensions start, if they do |
| TlsSni.ReadServerName | src/sni_extractor.cpp:99-121 | reads a host_name entry and nothing else from a server_name extension |
| TlsSni.Extract | src/sni_extractor.cpp:45-127 | on any bytes the loops end, stay in bounds, and return what the search over the extensions finds |
| TlsSni.SniIsSlice | src/sni_extractor.cpp:91-126 | a name that is found is a slice of the payload |
| TlsSni.SniIsFramed | src/sni_extractor.cpp:99-121 | on any payload, a name that is found stands behind its own length, type 0, a list length and an extension of type 0 that holds it |
| TlsSni.WalkFindsAnnouncedHost | src/sni_extractor.cpp:91-126 | walking encoded extensions, wherever they stand, finds the host that the list announces |
| TlsSni.HelloRoundTrip | src/sni_extractor.cpp:21-127 | any well-formed ClientHello with anything behind it yields exactly the host it announces, or nothing |
| TlsSni.TruncatedHelloIsRejected | src/sni_extractor.cpp:21-43 | a ClientHello cut short anywhere yields nothing |
| TlsSni.SplitHelloIsRead | src/sni_extractor.cpp:86-126 | of a ClientHello split over records anywhere, the first record yields the announced host exactly when its server_name extension ends within it, and nothing otherwise |
| TlsSni.GeneratedHelloRoundTrip | generate_test_pcap.py:79-115 | extract(create_tls_client_hello(s)) = s for every name that fits |
| Dns.ExtractQuery | src/sni_extractor.cpp:224-257 | on any bytes the loop ends, stays in bounds, and returns the join of the leading complete labels |
| Dns.AnswersOnlyQueries | src/sni_extractor.cpp:209-257 | on any payload, a name is found exactly when the header announces a question, is no response, and a complete label of 1 to 63 bytes follows |
| Dns.LabelsAreNonEmpty | src/sni_extractor.cpp:233-254 | no label that is read is empty |
| Dns.TruncatedQueryRoundTrip | src/sni_extractor.cpp:224-257 | a generated query cut anywhere behind its header yields the join of the leading labels that are complete and readable, or nothing |
| Dns.QueryRoundTrip | generate_test_pcap.py:122-137 | extractQuery(create_dns_query(d)) = d exactly when every label has 1 to 63 characters |
| HttpHost.ReadValue | src/sni_extractor.cpp:176-198 | reads the header's value between blanks and line end, without its port |
| HttpHost.Extract | src/sni_extractor.cpp:159-203 | on any bytes the scans end, stay in bounds, and return the first host header's value |
| HttpHost.RequestRoundTrip | generate_test_pcap.py:118-119 | a generated request yields its host if its request line holds no host header of its own |
| HttpHost.RequestWithPortRoundTrip | src/sni_extractor.cpp:185-197 | a generated request yields its host without whatever port stands behind it |
| HttpHost.DefaultRequestRoundTrip | generate_test_pcap.py:118-119 | with the generator's default path every plain host is read back |
| HttpHost.DefaultRequestWithPortRoundTrip | src/sni_extractor.cpp:191-195 | with the default path, host:port yields host for every plain host and any port text |
| HttpHost.HostIsFirstValue | src/sni_extractor.cpp:168-202 | on any payload, the result is a host exactly when it is the first host header value there is |
| HttpHost.HeaderHeedsNoCase | src/sni_extractor.cpp:169-174 | a header is the text "host:" in any letter case |
| HttpHost.ValueIsWhatStands | src/sni_extractor.cpp:176-198 | the value at a header is exactly what stands between blanks and a colon, a line end or the end, on a line that is not blank |
| HttpHost.HostIsSliceWithoutPort | src/sni_extractor.cpp:168-202 | on any payload a host that is found stands behind a header, holds no colon, and ends at one or with its line |
| TsQueue.PacketQueue.Push | include/thread_safe_queue.h:22-30 | appends when there is room, drops after a shutdown, and keeps first-in first-out |
| TsQueue.PacketQueue.TryPush | include/thread_safe_queue.h:33-41 | succeeds exactly when there is room and no shutdown |
| TsQueue.PacketQueue.Pop | include/thread_safe_queue.h:44-54 | takes the front packet, also after a shutdown, and nothing only from an empty queue |
| MtWorker.Find | src/dpi_mt.cpp:140-142 | the substring search finds a part exactly when it occurs |
| MtWorker.BlockRules.Blocked | src/dpi_mt.cpp:136-144 | true exactly when address, application or some contained domain is listed |
| MtWorker.FastPath.ClassifyFlow | src/dpi_mt.cpp:262-300 | writes exactly what payload or port say into the flow's entry |
| MtWorker.FastPath.Recognise | src/dpi_mt.cpp:231-242 | looks up or makes the entry, counts the packet, and classifies what is not settled |
| MtWorker.FastPath.CheckBlocking | src/dpi_mt.cpp:244-247 | sets the flag exactly when it was set or a rule matches, and never clears it |
| MtWorker.FastPath.HandlePacket | src/dpi_mt.cpp:228-258 | table, counters, application counts and decision are those of one pass over all packets handled so far |
| MtWorker.FastPath.Run | src/dpi_mt.cpp:223-260 | the loop's output is what one pass over its input forwards |
| MtWorker.ChooseWorker | src/dpi_mt.cpp:341-343 | balancer and worker are the hash modulo their counts, and the same for both directions |
| MtWorker.Partition | src/load_balancer.cpp:92-110 | balancer i is handed the workers from i times the share on, in order |
| MtStreams.ForwardedIsMonotone | src/dpi_mt.cpp:223-260 | what was forwarded stays forwarded as more packets come |
| MtStreams.ForwardedOrDropped | src/dpi_mt.cpp:252-258 | every packet is either forwarded or dropped, none twice and none made up |
| MtStreams.FlowsAreIndependent | src/dpi_mt.cpp:231-258 | what a pass forwards of some flows is what a pass over their packets alone forwards |
| MtFlows.PacketIsTakenFor | src/dpi_mt.cpp:262-300 | after any stream, a packet leaves a classified flow as it is, settles an open one by the TLS or HTTP name in it, or else guesses by the ports: 53 for DNS for good, 443 for HTTPS and 80 for HTTP for the time being |
| MtFlows.FlowStartsUnknown | src/dpi_mt.cpp:98-105 | a direction that has sent nothing is unknown, open and not blocked |
| MtFlows.PassesUnlessNamed | src/dpi_mt.cpp:136-144 | a packet gets through exactly when its direction was not blocked and no rule names its source, the application the flow is then known as, or a part of its name |
| MtFlows.GuessIsJudged | src/dpi_mt.cpp:287-299 | a packet without a name, such as a SYN, is judged by what its ports stand for |
| MtFlows.EntryCounts | src/dpi_mt.cpp:231-237 | an entry counts exactly its own direction's packets and bytes and bears their tuple |
| MtFlows.ForwardedUntilRuleMet | src/dpi_mt.cpp:239-258 | a direction's packets get through exactly up to the first that meets a rule, and none after it |
| MtFlows.MoreRulesForwardLess | src/dpi_mt.cpp:136-144 | with more rules each direction of each flow in any mixed stream gets through no further |
| MtPipeline.FpIndexIsInjective | src/dpi_mt.cpp:379-386 | no two balancers share a worker |
| MtPipeline.RoutesAgree | src/dpi_mt.cpp:341-345 | both directions of a flow take the same route, to a worker that exists |
| MtControl.RunIsControlled | src/dpi_mt.cpp:504-510 | in every run, what the main thread has done decides every flag, every shut queue and every joined thread |
| MtControl.LiveFpMeansOpenOutput | src/dpi_mt.cpp:506-509 | while a worker lives, the output queue is open and the writer is there |
| MtControl.NoPushIntoShutQueue | src/dpi_mt.cpp:36-42 | in no run does a thread come to push into a queue that was shut down |
| MtRefinement.RunRefines | src/dpi_mt.cpp:223-260 | in every run each worker's stream is the read packets routed to it, in order, and its table and output are those of a pass over what it handled |
| MtRefinement.PipelineRefinesSequentialPass | src/dpi_mt.cpp:416-497 | in every reachable state of every schedule, what is written of a flow is a prefix of what a sequential pass over the read packets forwards of it, and all of it once drained |
| MtRefinement.DrainedOutputIsPermutation | src/dpi_mt.cpp:416-429 | once drained, the output is the sequential output with at most the flows' interleaving changed |
| MtConservation.RunConserves | src/dpi_mt.cpp:36-62 | in every run, what was read weighs what is in queues, in hand, dropped and written, however packets are weighed |
| MtConservation.ExactlyOnePlace | src/dpi_mt.cpp:36-62 | every packet read is in exactly one place, once |
| MtConservation.RunCounts | src/dpi_mt.cpp:179-185 | in every run total, forwarded and dropped agree with what the threads have done |
| MtConservation.RunCountsApps | src/dpi_mt.cpp:179-185 | in every run the count of each application is the number of packets handled, over all workers, whose flow was known as it once the packet was classified |
| MtConservation.DrainedCountsAreSequential | src/dpi_mt.cpp:239-250 | once drained, the report counts each application as one sequential pass over the packets read would |
| MtConservation.FinalReport | src/dpi_mt.cpp:486-517 | at the end total = forwarded + dropped + left in balancer and worker queues, written = forwarded, and each application's count is that of the packets handled, forwarded + dropped in sum |
| MtLiveness.DistanceNeverGrows | src/dpi_mt.cpp:223-348 | no step of any thread leads further from the end |
| MtLiveness.SomeoneHelps | src/dpi_mt.cpp:36-62 | no deadlock: until the main thread is done some thread is on its way to a step that counts |
| MtLiveness.PacketsInTheWayCanMove | src/dpi_mt.cpp:36-62 | while the reader works, packets inside the pipeline can be moved on by the other threads |
| MtLiveness.OtherTurnsDoNotHurt | src/dpi_mt.cpp:223-348 | no other thread's step takes away what a thread can do |
| MtLiveness.RoundRobinIsFair | src/dpi_mt.cpp:505-510 | a fair schedule exists for any number of threads |
| MtLiveness.FairRunsTerminate | src/dpi_mt.cpp:486-517 | every fair run joins every thread with the report balanced, for any thread counts and queue capacities |
| Routing.Bezout | src/dpi_mt.cpp:341-343 | Euclid's result divides both worker counts and is a combination of them |
| Routing.SolveCongruences | src/dpi_mt.cpp:494-495 | a hash below the least common multiple leads to any pair of indices that agree modulo the greatest common divisor |
| Routing.ReachableIffCongruent | src/load_balancer.cpp:71-76 | worker b of balancer a can get packets exactly when a and b agree modulo the greatest common divisor |
| Routing.AllReachableIffCoprime | src/load_balancer.cpp:97-106 | all workers can get packets exactly when the two counts are coprime |
| Routing.LcmWorkersAreReachable | src/load_balancer.cpp:128-134 | exactly the least common multiple of the counts many workers can get packets |
| Routing.OthersStayIdle | src/dpi_mt.cpp:379-386 | in every run on every input a worker that is not congruent handles nothing |
| EndToEnd.ReadAll | src/dpi_mt.cpp:437-496 | the reader's loop yields exactly the accepted frames, in order and numbered |
| EndToEnd.PrintedAddressMatchesBytes | src/packet_parser.cpp:113-121 | a frame's source number is that of a printed address exactly when its source bytes are |
| EndToEnd.AddressRuleIsExact | src/dpi_mt.cpp:112-116 | with one printed address blocked, a frame is dropped exactly when its four source bytes are that address |
| EndToEnd.HelloFrameIsJudgedByHost | src/dpi_mt.cpp:262-273 | on an open flow a frame with a generated hello is forwarded exactly when no rule names its source, its host's application or a part of its host |
| EndToEnd.RequestFrameIsJudgedByHost | src/dpi_mt.cpp:275-285 | on an open flow a frame with a generated request is judged by its host without the port |
| EndToEnd.MoreRulesWriteLess | src/dpi_mt.cpp:136-144 | across two engines of any size and schedule, more rules never get more of a direction written |
| Connections.TcpKeepsCounters | src/fast_path.cpp:251-282 | the flags in bits: 1 is FIN, 2 is SYN, 4 is RST, 16 is ACK; they change only the state and what was seen, and decide the state exactly |
| Connections.ProcessedInBits | src/fast_path.cpp:80-113 | the record after a packet in the packet's bits: what was seen of handshake and FIN, when it is closed, when established, and that a blocked record drops what does not close it |
| Connections.JudgingKeepsCounters | src/fast_path.cpp:101-113 | inspection and rules change only state, action and what is known; a packet is dropped exactly when its record ends blocked |
| Connections.OpenRecordIsInspected | src/fast_path.cpp:115-202 | an open record takes the TLS name, or else the HTTP host, or else the question, each looked for at its own ports or sizes; without any of them 80 is HTTP and 443 is HTTPS; otherwise it stays as it was |
| Connections.OthersAreNotInspected | src/fast_path.cpp:106-109 | a settled record and a packet without payload leave what is known alone |
| Connections.DropMeansBlocked | src/fast_path.cpp:80-113 | DROP is returned exactly when the exit state is BLOCKED |
| Connections.VerdictMeansBlocks | src/fast_path.cpp:204-249 | a reason is given exactly when some kind of rule applies |
| Connections.BlocksByKind | src/fast_path.cpp:204-249 | blocking by source, destination port, application, or a name that is not empty |
| FlowHistory.StepDecides | src/fast_path.cpp:95-112 | a packet is dropped exactly when it meets a rule, or finds its record blocked and does not close it |
| FlowHistory.FinSeenIsFinBy | src/fast_path.cpp:271-273 | the flag says whether bit 1 was seen on this or an earlier TCP packet |
| FlowHistory.DroppedIffHeld | src/fast_path.cpp:80-113 | packet n is dropped exactly when some packet up to it met a rule and none after that up to n has bit 4, or bit 16 once bit 1 was seen |
| FlowHistory.BlockingIsFinalUntilClosed | src/fast_path.cpp:101-104 | after a drop nothing gets through until a packet closes the connection |
| FlowHistory.KnowledgeIsFrozen | src/connection_tracker.cpp:72-89 | application and name stay as they are while classified or blocked, until a packet closes |
| FlowHistory.ClosingLiftsBlock | src/fast_path.cpp:96-104 | a concrete flow whose first packet is dropped and whose second gets through |
| FlowHistory.BlockedHandshakeIsDropped | src/fast_path.cpp:251-282 | with the client blocked, its SYN and the server's SYN-ACK are both dropped |
| FlowHistory.HandshakeEstablishes | src/fast_path.cpp:251-282 | with nothing blocked, a SYN leaves the connection new and the SYN-ACK establishes it |
| FlowHistory.ActionRemembersDrops | src/connection_tracker.cpp:83-89 | the record's action says whether any packet was ever dropped |
| FlowHistory.CountersSplitByDirection | src/fast_path.cpp:88-94 | packets and bytes out are those of the packets whose tuple is the first one's, packets and bytes in those of the others, whose tuple is its reverse |
| Histories.TableHoldsHistories | src/fast_path.cpp:50-113 | in any run with evictions and cleanups each record is that of its own flow's packets since it was entered |
| Histories.CountersSplitByDirectionSince | src/connection_tracker.cpp:27-70 | the same of every record in any run with evictions and cleanups, over its flow's packets since it was entered |
| Histories.NextIsDroppedIffHeld | src/fast_path.cpp:80-113 | the next packet of any such run is dropped exactly when its flow's packets since the record was entered hold it |
| Histories.SinceIsAll | src/connection_tracker.cpp:27-47 | of a flow that is neither evicted nor cleaned up these are all its packets |
| ConnTracker.NewRecordMayBeEvicted | src/connection_tracker.cpp:152-164 | the record just entered can be evicted exactly when the table is full and nothing in it is older |
| ConnTracker.CleanedKeeps | src/connection_tracker.cpp:99-116 | a cleanup keeps exactly the records not closed and seen less than limit + 1 seconds of nanoseconds ago |
| ConnTracker.ConnectionTracker.GetOrCreate | src/connection_tracker.cpp:27-47 | finds or enters the flow under its canonical key, counts it once, and evicts one oldest record when over the limit |
| ConnTracker.ConnectionTracker.EvictOldest | src/connection_tracker.cpp:152-164 | removes one record than which none was seen earlier, whatever the scan's order |
| ConnTracker.ConnectionTracker.GetConnection | src/connection_tracker.cpp:49-56 | for a tuple and for its reverse: finds a record exactly when one in the table was entered by a packet of that flow in either direction, and that one |
| ConnTracker.ConnectionTracker.CleanupStale | src/connection_tracker.cpp:99-116 | removes exactly the closed and the long idle records and returns how many |
| FastPath.TimeoutKeepsFresh | src/fast_path.cpp:55-59 | a poll that times out keeps exactly the records not closed and seen less than 301 seconds ago |
| FastPath.NewRecordStays | src/connection_tracker.cpp:27-47 | a record that is found, or has room, or is younger than another is there when it is used |
| FastPath.TickingKeepsRecordsSafe | src/fast_path.cpp:80-94 | with room for one record and a clock that moves on between packets, no run loses a record before it is used |
| FastPath.CoincidingReadingsAreUnsafe | src/connection_tracker.cpp:152-164 | two packets of different flows at one reading, in a table for one record, and the second packet's record can be gone before it is used |
| FastPath.FastPathProcessor.UpdateTcpState | src/fast_path.cpp:251-282 | the flag tests in their order do what the bits say |
| FastPath.FastPathProcessor.TryExtractSni | src/fast_path.cpp:149-176 | classifies by the TLS name exactly when there is one to be looked for |
| FastPath.FastPathProcessor.TryExtractHttpHost | src/fast_path.cpp:178-202 | classifies by the HTTP host exactly when there is one to be looked for |
| FastPath.FastPathProcessor.InspectPayload | src/fast_path.cpp:115-147 | the chain of attempts classifies by the first that succeeds |
| FastPath.FastPathProcessor.CheckRules | src/fast_path.cpp:204-249 | drops and blocks exactly when a rule applies |
| FastPath.FastPathProcessor.Judge | src/fast_path.cpp:101-113 | drops what is blocked, inspects what is not classified, then asks the rules |
| FastPath.FastPathProcessor.ProcessPacket | src/fast_path.cpp:80-113 | one packet changes its own record as the model says and no other, besides one eviction; requires only that its record cannot be evicted before it is used |
| FastPath.FastPathProcessor.HandlePacket | src/fast_path.cpp:61-76 | processed = forwarded + dropped, and the table makes a step of the model, with eviction |
| FastPath.FastPathProcessor.Run | src/fast_path.cpp:50-78 | the polling loop goes through a run of the model, with its tables, evictions, cleanups and drops |
| Lru.LruStep | src/connection_tracker.cpp:27-47 | one packet moves its flow to the front of the recency list, and what falls off the end is what is evicted |
| Lru.CleanupStep | src/connection_tracker.cpp:99-116 | a cleanup leaves the remaining flows in their order |
| Lru.TableIsRecencyList | src/connection_tracker.cpp:27-70 | after any packets and cleanups the keys are exactly the most recently used flows that no cleanup struck out, as many as fit, and the record processed is still there |
| Sharding.ShardsActAsOneTable | src/load_balancer.cpp:49-76 | for every order of arrivals and idle cleanups in which no worker has to evict, the workers' tables together are what one table without a limit would be |
| Sharding.ShardsJudgeAlike | src/fast_path.cpp:50-113 | then the next packet is forwarded or dropped alike by its worker and by the one table |
| Sharding.ShardsAreDisjoint | src/load_balancer.cpp:128-134 | no flow is ever tracked by two workers, with or without eviction |
| GlobalTable.GatheredCounts | src/connection_tracker.cpp:198-204 | each application's entry is its number of connections, packets and bytes |
| GlobalTable.GatheredDomains | src/connection_tracker.cpp:206-208 | each domain's entry is the packets of its connections |
| GlobalTable.OnlyNamesAreListed | src/connection_tracker.cpp:206-208 | a domain is listed exactly when some connection has that name and it is not empty |
| GlobalTable.TotalsAreInAndOut | src/connection_tracker.cpp:198-204 | the totals are the sums of what came in and what went out |
| GlobalTable.ReportAddsUp | src/connection_tracker.cpp:193-210 | the applications' entries sum to all connections, packets and bytes |
| GlobalTable.SortByCount | src/connection_tracker.cpp:213-217 | all domains, each once, in descending order of packets |
| GlobalTable.TopDomains | src/connection_tracker.cpp:219-221 | a descending list of at most the limit, no entry of which is below an omitted domain |
| GlobalTable.Visit | src/connection_tracker.cpp:198-209 | the collecting callback over one table adds exactly its records, in whatever order |
| GlobalTable.GetGlobalStats | src/connection_tracker.cpp:181-224 | the report covers the live records of all trackers in whatever order they are scanned, sums the table sizes and the numbers seen, its entries sum to all connections, packets and bytes, and it lists at most 20 domains |
| EngineStop.PlayIsAccounted | src/dpi_engine.cpp:286-306 | in every run what was forwarded is what was written, is in hand or is queued, in that order |
| EngineStop.PlayKeepsTotal | src/dpi_engine.cpp:296-306 | in every run what the workers have left to forward and what was forwarded are together the same |
| EngineStop.LatePacketsAreLost | src/dpi_engine.cpp:86-108 | what is written falls short of what was forwarded by exactly the pushes after the output thread left |
| EngineStop.DrainedStopLosesNothing | src/dpi_engine.cpp:110-121 | with nothing left to forward, every way of stopping writes everything and is never stuck |
| EngineStop.StopCanHangIffBacklogOverflows | src/dpi_engine.cpp:86-108 | whatever the engine is doing when `stop` is called, some schedule makes it hang for good exactly when the workers have more left to forward than the output queue holds |
| EngineStop.StopCanLoseIffBacklog | src/dpi_engine.cpp:286-294 | some schedule makes `stop` return with a forwarded packet not written exactly when some worker has anything left to forward and the queue any room |
| EngineStop.StartCanHangOrLose | src/dpi_engine.cpp:86-108 | both conditions from the start, over any workers |
| Rules.UnblockUndoesBlock | src/rule_manager.cpp:105-130 | unblocking undoes blocking exactly when the entry was new or only repeats followed its first place; the patterns stay the same as a multiset |
| Rules.MatchIsLabelSuffix | src/rule_manager.cpp:132-150 | comparing string ends with "*.s" is comparing trailing labels |
| Rules.BlockedIffListedOrCovered | src/rule_manager.cpp:152-176 | blocked exactly when listed as written, or when the labels of some star-dot pattern end the domain's, letter case aside |
| Rules.SubdomainsAreBlocked | src/rule_manager.cpp:132-176 | what a pattern blocks it blocks with all subdomains |
| Rules.ExactEntryBlocksOnlyItself | src/rule_manager.cpp:155-158 | whatever the rules, one more exact entry blocks that spelling and no other and no subdomain |
| Rules.EntryBlocks | src/rule_manager.cpp:105-176 | one more entry blocks what it covers if it has a star anywhere, and itself as it is written if not |
| Rules.FindFirst | src/rule_manager.cpp:121-124 | finds the first equal pattern, so that erasing it leaves the others in order |
| Rules.RuleManager.BlockDomain | src/rule_manager.cpp:105-115 | entries with a star join the patterns, others the exact domains |
| Rules.RuleManager.UnblockDomain | src/rule_manager.cpp:117-130 | the scan erases the first equal pattern, or the exact entry |
| Rules.RuleManager.DomainBlocked | src/rule_manager.cpp:152-176 | the loop over the patterns decides what the model calls blocked |
| Rules.RuleManager.ShouldBlock | src/rule_manager.cpp:209-236 | the reason is the first of address, port, application and domain that applies, with its detail; none exactly when none applies |
| Rules.VerdictInOrder | src/rule_manager.cpp:209-236 | address before port, port before application, application before domain, each with its detail |
| RuleFile.SaveRules | src/rule_manager.cpp:242-278 | the file holds the four sections, each set in some order, the patterns in theirs |
| RuleFile.SampleFile | src/rule_manager.cpp:242-278 | the text of a saved file with one entry of each kind |
| RuleFile.ApplyLine | src/rule_manager.cpp:299-314 | a line changes the rules as its section says, or ends the loading |
| RuleFile.LoadRules | src/rule_manager.cpp:280-320 | the manager holds what the file's lines add up to, and up to where a port did not parse |
| RuleFile.FileRoundTrip | src/rule_manager.cpp:242-320 | a saved file restores addresses, applications, domains, ports and ordered patterns exactly when no domain is empty, has a line end or begins like a header |
| RuleFile.Reload | src/rule_manager.cpp:242-320 | a new manager loads from another's file the same rules exactly when all its domain entries are such lines |

## Left out

- Rows for operations that are one assignment: the block, unblock and clear operations of the rule managers and the tracker's updates of one record are proved to change that and nothing else, and have no row above.
- 64-bit counters do not wrap around; all counters are natural numbers.
- FastPath.FastPathProcessor.ProcessPacket: requires that eviction cannot take the packet's record before it is used, because what the original does then is undefined.
- FastPath.FastPathProcessor.Run: requires the same of every run of its polls, and the rules stay as they are meanwhile.
- Lru.TableIsRecencyList: assumes a clock that ticks between packets and room for one record, without which the record in use may be evicted.
- Sharding.ShardsActAsOneTable: speaks of runs in which no worker has to evict; with eviction each worker has a limit of its own, which no single table has.
- Sharding.ShardsJudgeAlike: the same.
- Frames.ParsedPacket.Parse: MAC address texts, the timestamp, and sequence and acknowledgement numbers are not fields of the record, as nothing decides by them.
- Frames.ParsedPacket.ParseEthernet: leaves the MAC address texts out.
- Frames.ParsedPacket.ParseTCP: leaves sequence and acknowledgement numbers out.
- MtWorker.FastPath.HandlePacket: the map of detected names is not a field of this object, and the shared counts are those that this worker adds.
- MtWorker.FastPath.Run: takes the packets that it will pop as a list; the flag and the queue are in `MtPipeline`.
- Dns.QueryRoundTrip: labels are ASCII and shorter than 256 bytes; for others the generator fails or writes a length in characters.
- Dns.TruncatedQueryRoundTrip: the same.
- EngineStop.PlayIsAccounted: a worker is the list of packets it will still forward; the queues, balancers and flags before it follow the same protocol as the multi-threaded engine's.
- IpText.ParseIPLoop: gives no result where C++ leaves one undefined: an octet beyond `int`, a shift of 32 or more, a shifted octet beyond 32 bits.
- HttpHost.RequestRoundTrip: assumes a request line without "host:", because the extractor takes the first such text anywhere in the payload; `HttpHost.HostIsFirstValue` says what it takes from any payload.
- MtConservation.FinalReport: the printed percentages, and the bytes and protocols counted by the reader, are left out.
- ConnTracker.ConnectionTracker.GetOrCreate: hands out the record's key instead of a pointer, so aliasing of two pointers to one record is not modelled.
- MtLiveness.FairRunsTerminate: a thread's wait for room is fair in the sense that the thread is scheduled again and again; lost wake-ups of the condition variables are not modelled.
- The multi-threaded engine's threads are a state machine over values; that its queues, rules and workers as objects take the same steps is proved one call at a time in `TsQueue` and `MtWorker`.
- Changing rules while the engine runs is modelled in `FlowHistory`, where every packet has its own rules, and not in the multi-threaded pipeline, where rules are fixed before the run.
- The captures' file format, opening of files, console output, reports and argument parsing.
- The sets of detected names, the byte statistics of the engines and the per-worker dispatch counts.
- The QUIC heuristic and `extractExtensions`, which neither engine calls.
- Which application a name stands for; every proof holds for any such function.
- The single-threaded programs, which repeat the sequential loop.
