# Culex in Dafny

A model of the session, topic and framing logic of the Culex MQTT 3.1.1 broker, with proofs about it.

The model has two layers. Classes with mutable fields follow the broker's own: `TopicTree` and its
`Node` objects, `ClientSession`, `MinHeap`, `ManageSessions`, `MqttSession`, the byte `Cursor` of the
decoders and the `Receiver`. Each of their methods is proved against a value-level step; theorems about
whole runs are lemmas on those values.

| file | what it holds |
|---|---|
| Packets, Wrappers, ByteMemory | value types, flag packing, memory and the byte cursor |
| RemainingLength, Unpack, Wire, Receive | the length field, the decoders, the layout of the standard, streams in chunks |
| TopicNames, TopicFilter, TopicTree, TopicHistory | splitting topics, what a filter reaches, the node objects, theorems over runs of tree operations |
| TopicStrings | matching of filter and topic strings, against the standard |
| InflightHistory, Sessions | QoS 2 over event histories, the session object |
| MinHeap, ManageSessions | the two heaps, the registry, keep-alive, routing, retransmission |
| PacketHandlers, MqttSession | the packet handlers and the dispatch of decoded frames |
| BrokerLoop | what the event loop does to the objects, as the next steps of their run |
| BrokerModel | the broker's state as a value and each handler and maintenance pass as one step |
| BrokerInvariants, KeepAlive, BrokerRuns | what every step keeps, so what every reachable state has |
| Effects | what every step does, written out in the broker's fields, independently of the functions of `BrokerModel` |
| KeepAliveRuns | who is heard of, what a pass does to whom, who keeps its connection, over whole runs |
| Deliveries | DUP flags and packet ids of what is sent |
| Routing, ReachableSessions | the QoS that is sent, every session in every run |
| TreeSteps, JointRuns | what each step does to the tree, and runs of broker and tree together |
| Retransmissions | what a retransmission pass and a resumption send, and QoS 2 exactly once of what a session itself holds |
| Copies | the copies that routing leaves with subscribers, when they are sent, and QoS 2 exactly once with them |
| ExpiryTermination, SessionFates | when the expiry drain ends, what becomes of a session's transport, registration and connection |
| ExampleRuns | runs from the initial state, of broker and tree, that show the failures below |

How the model reads the code:

- A handler or maintenance pass is one atomic step. A clock reading is an argument that never goes back;
  a handler takes one.
- A `weak_ptr` to a session locks exactly when the registry still owns the session. A transport is an
  identity; a `weak_ptr` to it locks while it is in the session table, and for the handlers of its own
  packets, which own it, also after it has been taken out (`held`, `Writable`).
- Unordered maps are listed in arbitrary order, and a heap may bring up any of several least entries.
- Broker and tree run together in `JointRuns`; theorems that do not depend on what the tree returns leave
  the matches of a step open.
- `history` and `routed` of a session, `ops` of the tree, `created`, `clock` and `run` of the manager are
  ghost records, not fields of the broker. `run` is the run of broker and tree that has led to the objects'
  state (`Recorded`), so what is proved over all runs holds of the objects.
- Memory past the received bytes is arbitrary, so what is proved does not depend on it.

Where the code and its documentation or the standard disagree, the model follows the code:

- Wildcard subscriptions do not reach topics first used later, and "#" on a childless node selects
  nothing (`LateTopicIsMissed`, `SubscribeReaches`).
- `split` drops the first character of a topic and a final slash (`SplitCollides`), so that "sport/x"
  matches "zport/x"; where it does no harm is exact (`MatchesAsStandardIff`, `SafeTopicsAreSound`,
  `UnsafeTopicsAreNot`).
- Lengths of 128^3 and more are refused, and `encode_length` always returns 0 (`DecodeInvertsEncode`,
  `EncodeLength`).
- The QoS of a routed packet is lowered in place, so an earlier subscriber lowers a later one's
  (`PrescribedQosIff`, `ExampleRuns.EarlierSubscriberLowersQos`).
- The stored copy of a delivery keeps the publisher's packet id while its retransmission entry has the
  allocated one, and both are looked up among the client's own QoS 2 packets. So a pass may find nothing
  or another packet (`PassFinds`); it may route the client's own packet before its PUBREL, which then
  routes it or something else, while what a session without deliveries holds is routed by at most one step
  (`RoutedByOneStep`, `RetransmitRoutesIff`, `PassRoutesOwnPacket`); and the copy can block the client's own
  QoS 2 packet of that id (`PublishIsAcceptedIff`, `ExampleRuns.DeliveryCollision`).
- A pass that finds a delivered packet sends it not only to the subscriber it was delivered to but
  routes it to every subscriber of its topic again, under newly allocated packet ids, and this leaves copies again.
  So even a QoS 2 packet that its PUBREL has released once may be sent again; when one step only sends it is
  exact (`CopyIsSentIff`, `CarriedByOneStepIff`, `CopiesRestIff`, `LeavesCopiesIff`,
  `ExampleRuns.CopyIsSentAgain`).
- A client that connects again, without a clean session, over the transport its session came over is sent
  its own unreleased QoS 2 packets before the CONNACK (`ResumeResendsIff`, `ConnectWrites`, `ResendWrites`,
  `ConnectSendsIff`, `OwnTransportResends`); their PUBRELs still route them (`RoutedByOneStep`).
- A second CONNECT, of another client, on one transport makes two sessions that share it, and the expiry
  of one then closes the other's (`KeepAliveSpares`, `NoLiveSessionIsCutOff`, `SharedTransportIsCut`).
- A due expiry entry whose session has been freed is never popped, so the pass over the heap does not
  end, nor does any later one (`ProcessExpiredSessions`, `EntriesStayAliveIff`,
  `ReconnectLeavesDeadEntry`, `DeadEntryIsForever`, `LaterPassesHang`).
- Resuming a session neither marks it connected nor attaches the new transport, and sends nothing again
  over a new one; the session stays offline for good (`OfflineForever`).
- A subscription keeps naming the session it was made for, so a client that comes back with a clean
  session is found and gets nothing (`FreedSubscriberIsDeaf`, `CleanReconnectIsDeaf`).
- A due retransmission entry of a freed session, once on top, ends all retransmission
  (`BlockedForever`, `NothingIsRetransmitted`, `FreedTopBlocks`).
- PUBLISH with QoS 2, PUBACK, PUBREC, PUBREL, PUBCOMP and a bad frame dereference a null session when the
  client has none; the methods return `NullSession` there.
- The UNSUBSCRIBE handler looks for another body and does nothing.

`dafny verify dfyconfig.toml` checks everything.

## Model

| member | source | states |
|---|---|---|
| `TopicNames.Split` | mqtt/src/topictree.cpp:13-35 | the loop computes `SplitTopic`: the first character, whatever it is, becomes the level "/", and a final slash opens no level |
| `TopicNames.SplitInvertsJoin` | mqtt/src/topictree.cpp:13-35 | for every list of slash-free levels whose last is nonempty, splitting "/" plus the joined levels gives "/" and exactly those levels |
| `TopicNames.SplitCollides` | mqtt/src/topictree.cpp:19-31 | two topics split alike if and only if they agree after the first character up to one final slash: exactly what `split` forgets |
| `TopicFilter.MatchesLevelwise` | mqtt/src/topictree.cpp:65-80 | the recursive matching relation of section 4.7.1 of MQTT 3.1.1 is the level-by-level condition the lookup walks |
| `TopicFilter.SelectedMeaning` | mqtt/src/topictree.cpp:64-86 | a lookup selects a node if and only if the node exists, its path matches the filter under section 4.7.1, and it is not a childless node exactly at the "#" |
| `TopicFilter.SelectedIsMonotone` | mqtt/src/topictree.cpp:59-87 | a node selected in a tree is selected in every larger tree |
| `TopicFilter.GrowCreates` | mqtt/src/topictree.cpp:81-84 | a lookup creates a node exactly where the filter up to that level, without a "#", matches its path under section 4.7.1 and the node for each "+" was there before |
| `TopicFilter.GrowKeepsShape` | mqtt/src/topictree.cpp:81-84 | a lookup keeps the set of paths prefix-closed |
| `TopicFilter.GrowKeepsNames` | mqtt/src/topictree.cpp:65-84 | no lookup ever creates a node named "+" or "#" |
| `TopicFilter.LiteralReachesItself` | mqtt/src/topictree.cpp:81-86 | a filter without wildcards selects its own node, newly created if need be, and no other |
| `TopicTrees.Node.AddLink` | mqtt/include/topictree.h:60-63 | a fresh child under that key, whose level is its key; the other links stay |
| `TopicTrees.Node.GetLinkTopics` | mqtt/include/topictree.h:72-80 | the keys of the links, each exactly once, in arbitrary order |
| `TopicTrees.Node.ListSubscribers` | mqtt/src/topictree.cpp:99-101 | the subscriptions at one node, one for each client, in arbitrary order |
| `TopicTrees.Node.Subscribe` | mqtt/include/topictree.h:83-87 | the client's subscription at the node is replaced, all others stay |
| `TopicTrees.Node.Unsubscribe` | mqtt/include/topictree.h:90-94 | the client's subscription at the node goes, all others stay |
| `TopicTrees.TopicTree.HandleWildCard` | mqtt/src/topictree.cpp:37-55 | collects every node of the subtree at a path exactly once and nothing else; terminates because the subtree shrinks |
| `TopicTrees.TopicTree.GetNode` | mqtt/src/topictree.cpp:59-87 | returns precisely the selected nodes, each once; adds precisely the created nodes, all fresh and bare; keeps the objects a tree and every old subscription |
| `TopicTrees.TopicTree.FanOut` | mqtt/src/topictree.cpp:69-73 | the "+" loop goes on into each child found at the start, and the union of the outcomes is what the filter selects below |
| `TopicTrees.TopicTree.AtWildcard` | mqtt/src/topictree.cpp:65-80 | the wildcard branch of the lookup, a childless node included, which selects nothing |
| `TopicTrees.TopicTree.Subscribe` | mqtt/src/topictree.cpp:107-120 | the objects again hold the tree that the run of all operations so far defines, with this subscribe as its latest |
| `TopicTrees.TopicTree.Unsubscribe` | mqtt/src/topictree.cpp:122-134 | the same for an unsubscribe |
| `TopicTrees.TopicTree.Match` | mqtt/src/topictree.cpp:89-105 | lists exactly the (node, client) pairs at the selected nodes of the grown tree, each once |
| `TopicHistory.RunShape` | mqtt/src/topictree.cpp:59-134 | in every reachable tree value the paths are prefix-closed |
| `TopicHistory.RunGrows` | mqtt/src/topictree.cpp:81-84 | nodes are only ever added |
| `TopicHistory.LatestDecides` | mqtt/src/topictree.cpp:107-134 | over every run: a node holds a client with subscription s if and only if the client's latest operation whose expansion, on the tree as it then stood, reached the node was a subscribe with s |
| `TopicHistory.LiteralMatchIsLatest` | mqtt/src/topictree.cpp:89-134 | over every run: matching a topic without wildcards returns each client at most once, and with subscription s if and only if its latest operation that reached the topic was a subscribe with s |
| `TopicHistory.LiteralRunIsFlat` | mqtt/src/topictree.cpp:59-134 | over every run without wildcards the tree is the flat (path, client) map in which every operation works on its own topic only |
| `TopicHistory.MatchingIsSound` | mqtt/src/topictree.cpp:65-105 | over every run, of split level lists: whoever is found at a node subscribed earlier with that subscription and a filter whose levels match under section 4.7.1; for strings see `TopicStrings` |
| `TopicHistory.SubscribeReaches` | mqtt/src/topictree.cpp:65-119 | over every run, of a filter that matches: the operation reaches the topic if and only if, in the tree before it, the topic's node is there with a child (exactly at the "#"), or is there or is one that the operation creates (anywhere else) |
| `TopicHistory.LiteralSubscribeReaches` | mqtt/src/topictree.cpp:81-119 | a filter without wildcards always reaches its own topic and no other |
| `TopicHistory.LateTopicIsMissed` | mqtt/src/topictree.cpp:65-80 | over every run: an operation whose filter has a "+" never reaches a topic that had no node yet at that level when the operation came |
| `TopicHistory.LateTopicIsUnheard` | mqtt/src/topictree.cpp:65-105 | over every run: a client all of whose matching subscribes came too early in that sense does not hear of the topic |
| `TopicHistory.LateTopicExample` | mqtt/src/topictree.cpp:65-80 | a concrete case: after a subscribe to "/a/+", "/a/b" does not hold the client |
| `TopicHistory.UnsubscribeCancels` | mqtt/src/topictree.cpp:107-134 | after a subscribe of f, any operations and an unsubscribe of f, no node that either expansion of f reached holds the client, however the tree has grown |
| `TopicStrings.SplitIs` | mqtt/src/topictree.cpp:13-35 | the split of a nonempty string is "/" and then the standard's levels of what follows the first character, without one final empty level |
| `TopicStrings.MatchesAsStandard` | mqtt/src/topictree.cpp:13-86 | for all filter and topic strings that begin with a slash and do not end with one, matching after the split is matching under section 4.7.1 |
| `TopicStrings.MatchesAsStandardIff` | mqtt/src/topictree.cpp:13-86 | a nonempty topic string is matched as section 4.7.1 says by every such filter if and only if it is such a string itself |
| `TopicStrings.FirstCharacterIsLost` | mqtt/src/topictree.cpp:19-31 | concrete failures: "sport/x" is taken to match "zport/x", and "#" not to match "/a" |
| `TopicStrings.SafeTopicsAreSound` | mqtt/src/topictree.cpp:13-105 | over every run whose filter strings begin with a slash and do not end with one: whoever is found at a topic string that does too, or is empty or "/", subscribed to it under section 4.7.1 with that subscription |
| `TopicStrings.UnsafeTopicsAreNot` | mqtt/src/topictree.cpp:13-105 | for every other topic string without wildcard levels: a run with such filters in which a client is found there that never subscribed to it |
| `Packets.HeaderRoundTrip` | mqtt/include/packets.h:63-80 | unpacking inverts packing of the fixed header |
| `Packets.ConnectFlagsRoundTrip` | mqtt/include/packets.h:97-120 | unpacking inverts packing of the connect flags |
| `RemainingLength.EncodeLength` | mqtt/src/packets.cpp:5-19 | appends exactly the encoding to the buffer; the returned count is always 0 |
| `RemainingLength.DecodeLength` | mqtt/src/packets.cpp:21-46 | for every content of memory, computes the value, the bytes used, or which of the two failures |
| `RemainingLength.DecodeInvertsEncode` | mqtt/src/packets.cpp:5-46 | decoding inverts encoding with any trailing bytes if and only if n < 128^3, and throws if and only if not (section 2.2.3 of MQTT 3.1.1 allows 128^4) |
| `RemainingLength.EncodedIsShortest` | mqtt/src/packets.cpp:5-19 | any other byte string denoting n is longer than its encoding |
| `RemainingLength.EncodingIsPrefixFree` | mqtt/src/packets.cpp:5-19 | if one encoding followed by anything equals another followed by anything, value and rest are equal |
| `RemainingLength.DecodeOfPrefix` | mqtt/src/packets.cpp:26-43 | on a proper beginning of a field decoding never throws, whatever the byte one past the end holds |
| `Unpack.IsPartial` | mqtt/src/unpack.cpp:19-38 | whole, partial or malformed, and where the cursor is left, for every content of memory |
| `Unpack.UnpackConnect` | mqtt/src/unpack.cpp:40-81 | agrees with the value-level reading of a CONNECT, with its optional strings in order |
| `Unpack.UnpackPublish` | mqtt/src/unpack.cpp:83-109 | agrees with the value-level reading of a PUBLISH, a negative payload size included |
| `Unpack.UnpackAck` | mqtt/src/unpack.cpp:111-127 | agrees with the value-level reading of the acknowledgements |
| `Unpack.UnpackSubscribe` | mqtt/src/unpack.cpp:129-156 | agrees with the value-level reading of a SUBSCRIBE, whose signed count may overshoot |
| `Unpack.UnpackUnsubscribe` | mqtt/src/unpack.cpp:159-192 | agrees with the value-level reading of an UNSUBSCRIBE, and says when its unsigned count passes zero |
| `Unpack.UndecodedTypes` | mqtt/src/unpack.cpp:194-209 | types 0, 2 and 9 are refused, types above 10 read past the table, whatever follows |
| `Unpack.FrameOutcomes` | mqtt/src/unpack.cpp:40-192 | of a frame that is all there: a CONNECT is refused if and only if its protocol name is not "MQTT"; a PUBLISH throws if and only if topic and id are longer than the frame, and else its payload is the rest; an UNSUBSCRIBE is refused if and only if bit 1 of its first byte is clear; every other is decoded |
| `Unpack.UnpackPacket` | mqtt/src/unpack.cpp:194-209 | the decode table: every first byte leads to the outcome `FrameAt` gives |
| `Wire.FiltersRoundTrip` | mqtt/src/unpack.cpp:143-152 | for any list of filters laid out as in section 3.8.3, the loop returns that list in order, ends with remaining payload exactly zero and the cursor at the end |
| `Wire.TopicsRoundTrip` | mqtt/src/unpack.cpp:182-188 | for any list of filters laid out as in section 3.10.3, the loop returns that list and ends exactly |
| `Wire.FrameRoundTrip` | mqtt/src/unpack.cpp:194-209 | decoding a buffer that starts with any well-formed frame gives exactly its packet, whatever follows |
| `Wire.ProperPrefixIsPartial` | mqtt/src/unpack.cpp:19-38 | every nonempty proper prefix of a well-formed frame is judged partial, whatever memory holds from its end on |
| `ByteStream.ChunkIndependence` | mqtt/src/mqttsession.cpp:15-36 | two drained receivers of the same bytes have taken the same number of frames and hold the same rest, however the bytes were chunked |
| `Receive.Receiver.ParseData` | mqtt/src/mqttsession.cpp:15-42 | the outcome is that of decoding the buffer; a decoded frame is erased exactly, and nothing changes otherwise |
| `Receive.Receiver.Deliver` | mqtt/src/mqttsession.cpp:15-62 | after any chunk, parsed until partial, the packets dispatched are a prefix of those sent, and no further frame is complete |
| `Receive.DeliverAll` | mqtt/src/mqttsession.cpp:15-62 | a whole stream of well-formed frames in any chunks is dispatched as exactly those packets in order with no byte left over |
| `InflightHistory.HeldIffHolder` | mqtt/include/mqttsession.h:64-90 | an id is held if and only if some event stored it first since its latest removal, and the packet is that event's |
| `InflightHistory.ExactlyOnce` | mqtt/src/packethandlers.cpp:193-205 | for every history: an accepted packet is held and its repeats refused until the next PUBREL or PUBACK of its id; a PUBREL there releases it, no other ever does, and that one releases nothing else |
| `InflightHistory.PubrelRoutes` | mqtt/src/packethandlers.cpp:293-320 | a PUBREL routes the packet of the one acceptance it releases, or nothing; what a retransmission pass routes is in `Retransmissions` |
| `InflightHistory.UnreleasedIsHeld` | mqtt/src/packethandlers.cpp:193-205 | an accepted packet whose id was not removed is still held |
| `InflightHistory.AcceptancesAreConserved` | mqtt/src/packethandlers.cpp:193-320 | acceptances equal those released by a PUBREL plus those removed by a PUBACK plus those still held |
| `InflightHistory.PublishIsAcceptedIff` | mqtt/src/packethandlers.cpp:193-205 | a QoS 2 PUBLISH is accepted if and only if nothing holds its id; without deliveries the holder can only be an earlier copy of the same flow |
| `InflightHistory.AckedIffLatestIsPubrec` | mqtt/src/packethandlers.cpp:267-342 | an id is in the acknowledgement map if and only if the latest PUBREC or PUBCOMP for it was a PUBREC |
| `InflightHistory.StoredPackets` | mqtt/include/mqttsession.h:64-124 | every stored packet is a PUBLISH under its own id with nonzero length, or a four-byte PUBREL under its own id, so length 0 means absent |
| `Sessions.ClientSession.AllocatePacketId` | mqtt/include/mqttsession.h:54-61 | the next 16-bit id, skipping 0; nothing else changes |
| `Sessions.ClientSession.StoreInflight` | mqtt/include/mqttsession.h:64-69 | inserts under the packet's own id unless that id is taken |
| `Sessions.ClientSession.StoreInflightAcknowledgement` | mqtt/include/mqttsession.h:72-77 | the same for the acknowledgement map |
| `Sessions.ClientSession.RemoveFromInflight` | mqtt/include/mqttsession.h:80-89 | returns the packet under the id or an empty one, and removes exactly that id |
| `Sessions.ClientSession.RemoveFromInflightAcknowledgement` | mqtt/include/mqttsession.h:92-101 | the same for the acknowledgement map |
| `Sessions.ClientSession.GetPacket` | mqtt/include/mqttsession.h:104-124 | the packet stored in the map that the type names, or an empty one |
| `Sessions.ClientSession.StoreMessage` | mqtt/include/mqttsession.h:127-130 | appends to the queue |
| `MinHeaps.MinHeap.Push` | mqtt/include/managesessions.h:127-139 | the entry joins; a top whose key is not larger stays the top; counts of due entries change by the new one only |
| `MinHeaps.MinHeap.Pop` | mqtt/include/managesessions.h:127-139 | exactly the top goes, and a least entry comes up |
| `SessionManagers.ManageSessions.constructor` | mqtt/src/managesession.cpp:5-7 | the initial state of the broker, with an empty tree |
| `SessionManagers.ManageSessions.AddSession` | mqtt/src/managesession.cpp:12-19 | a new live transport |
| `SessionManagers.ManageSessions.ForceDisconnect` | mqtt/src/managesession.cpp:21-25 | the transport is gone, nothing else changes |
| `SessionManagers.ManageSessions.SessionPresent` | mqtt/src/managesession.cpp:27-39 | the registered session of a client id, if any |
| `SessionManagers.ManageSessions.RemoveFromRegistry` | mqtt/src/managesession.cpp:41-48 | exactly that client id is dropped |
| `SessionManagers.ManageSessions.AddToRegistry` | mqtt/src/managesession.cpp:50-53 | the session is registered under its own id |
| `SessionManagers.ManageSessions.UpdateActivity` | mqtt/src/managesession.cpp:55-60 | the activity time of the registered session becomes now, that of every other session stays, and nothing else changes |
| `SessionManagers.ManageSessions.ScheduleExpiry` | mqtt/src/managesession.cpp:62-72 | one entry at the true deadline, none for a zero keep-alive |
| `SessionManagers.ManageSessions.GetNextTimeoutMs` | mqtt/src/managesession.cpp:74-87 | -1 if and only if nothing is scheduled; else exactly the time until the least key of an entry, or 0 if that is past; within 0..98302500, and never past the deadline of a connected session with a live transport and nonzero keep-alive |
| `SessionManagers.ManageSessions.DrainExpired` | mqtt/src/managesession.cpp:98-121 | sorts the due entries into overdue and stale ones; every pass pops one, unless it meets a freed session |
| `SessionManagers.ManageSessions.DisconnectSessions` | mqtt/src/managesession.cpp:123-132 | the overdue sessions lose their transports, clean ones their registration |
| `SessionManagers.ManageSessions.ScheduleSessions` | mqtt/src/managesession.cpp:134-136 | the stale ones get a new entry each |
| `SessionManagers.ManageSessions.ProcessExpiredSessions` | mqtt/src/managesession.cpp:89-137 | hangs if and only if some due entry's session has been freed; otherwise it is the expiry step and keeps the invariants |
| `SessionManagers.ManageSessions.ScheduleRetransmission` | mqtt/src/managesession.cpp:139-147 | pushes one entry due 5000 ms later, so no more entries are due and a due top stays on top |
| `SessionManagers.ManageSessions.SendToClient` | mqtt/src/managesession.cpp:215-244 | of a PUBLISH, the send step: above QoS 0 a new id, a copy stored under the old id, one retransmission entry; of an acknowledgement, nothing stored; either is written if the transport lives |
| `SessionManagers.ManageSessions.RouteMatch` | mqtt/src/managesession.cpp:192-206 | one match is passed over, queued, dropped or sent at the lowered QoS |
| `SessionManagers.ManageSessions.RoutePacket` | mqtt/src/managesession.cpp:186-213 | the matches are exactly what the tree finds for the topic, and the effect is the routing step over them |
| `SessionManagers.ManageSessions.CreateSubscription` | mqtt/src/managesession.cpp:246-253 | a registered client's filter joins the tree's history; an unregistered one's does not |
| `SessionManagers.ManageSessions.RemoveSubscription` | mqtt/src/managesession.cpp:255-261 | the same for removal |
| `SessionManagers.ManageSessions.Resend` | mqtt/src/managesession.cpp:162-174 | a stored PUBLISH is matched and routed afresh with DUP set; anything else is acknowledged again |
| `SessionManagers.ManageSessions.TopPacket` | mqtt/src/managesession.cpp:153-160 | the top's packet, unless the top is not due or its session or packet is gone |
| `SessionManagers.ManageSessions.RetransmitTop` | mqtt/src/managesession.cpp:153-176 | one pass is the retransmission step over the top entry, and strictly fewer entries are due afterwards |
| `SessionManagers.ManageSessions.DrainRetransmissions` | mqtt/src/managesession.cpp:149-184 | terminates after at most as many passes as entries were due, although routing pushes into the heap |
| `SessionManagers.ManageSessions.ProcessRetransmissions` | mqtt/src/managesession.cpp:149-184 | from a state with the invariants, a chain of passes, each over a due entry with the least key, each routed to what the tree returns at its turn, ends with the heap empty or its top not sendable; every state on the way has the invariants |
| `Routing.EachMatch` | mqtt/src/managesession.cpp:193-206 | every match is exactly one of passed over, sent, queued, dropped, in the broker's own fields: sent at the lower of its own QoS and the header's, with the next packet id, a copy under the packet's own id if that is free and an entry 5000 ms later; queued at the header's QoS; what is sent is never above the published QoS |
| `Routing.RoutedQosIsRunningMin` | mqtt/src/managesession.cpp:202-203 | the QoS in the header after some matches is the minimum of the published one and the reached subscriptions so far |
| `Routing.PrescribedQosIff` | mqtt/src/managesession.cpp:202-204 | a subscriber gets the QoS of section 3.8.4 if and only if no subscriber reached before it has a lower one |
| `Routing.OneEntryPerPositiveSend` | mqtt/src/managesession.cpp:224-232 | routing pushes exactly one retransmission entry for each send above QoS 0 and removes none |
| `BrokerInvariants.RouteIsQuiet` | mqtt/src/managesession.cpp:186-244 | routing leaves registry, transports, expiry heap and every session's standing alone |
| `BrokerInvariants.RouteKeepsStorage` | mqtt/src/managesession.cpp:215-232 | routing keeps every session's maps what its history says |
| `KeepAlive.KeepAliveEnforced` | mqtt/src/managesession.cpp:89-137 | after a pass at time now, no registered, connected session with a live transport and nonzero keep-alive is past its deadline (section 3.1.2.10) |
| `KeepAlive.KeepAliveSpares` | mqtt/src/managesession.cpp:98-132 | a registered session whose deadline is still ahead keeps its registration and data, and is online afterwards if and only if it was before and no session disconnected in this pass uses its transport |
| `KeepAlive.DrainedOnce` | mqtt/src/managesession.cpp:98-121 | the drained entries belong to different sessions, none of which has another entry |
| `KeepAlive.ExpireKeeps` | mqtt/src/managesession.cpp:89-137 | an expiry pass keeps the keep-alive invariant |
| `BrokerRuns.ResumeResendsIff` | mqtt/src/packethandlers.cpp:66-109 | a session about to be resumed is never in the session table with its transport, so the resend code runs if and only if this CONNECT came over the session's own transport, which its handler keeps alive |
| `BrokerRuns.ConnectKeeps` | mqtt/src/packethandlers.cpp:55-166 | every CONNECT, whatever its level and flags, keeps the keep-alive invariant |
| `Effects.EveryStep` | mqtt/src/packethandlers.cpp:55-387 | over every run, each step does exactly this and nothing else, in the broker's own fields: which session changes, how each of its fields does, what is answered to whom, and who is registered and scheduled; see `Effect`. What an expiry pass does is in `KeepAliveRuns` |
| `Effects.Answers` | mqtt/src/packethandlers.cpp:193-342 | over every run: a QoS 2 PUBLISH, first or repeated, writes exactly its PUBREC, a PUBREC its PUBREL, a PUBREL whose id is not held its PUBCOMP, PUBACK and PUBCOMP nothing; of a client without a session all write nothing |
| `Effects.SendableIff` | mqtt/src/managesession.cpp:153-160 | over every run an entry can be sent again if and only if it is due, its session is registered, and that session holds a packet under its id |
| `KeepAliveRuns.ActivityIsRenewed` | mqtt/src/managesession.cpp:55-60 | over every run the activity time of a session becomes the time of the step if the step is a packet, other than a CONNECT, of the client it is registered for, and stays otherwise; its keep-alive and clean flag change only when a CONNECT resumes it, its client id and transport never |
| `KeepAliveRuns.LateIsClosed` | mqtt/src/managesession.cpp:98-132 | over every run: a connected session with a due entry and lastActivity + 1500 * keepAlive past loses its live transport, if no other such session shares it; a clean one leaves its client id free, any other stays registered with all it has stored and is not connected |
| `KeepAliveRuns.OthersAreLeft` | mqtt/src/managesession.cpp:98-136 | over every run: any other registered session, and one whose transport is gone already, stays registered with all its data; only its recorded expiry time may move, to the true deadline |
| `KeepAliveRuns.PassesTakeAndGive` | mqtt/src/managesession.cpp:89-137 | over every run a pass closes the transports of exactly those late sessions, takes every due entry out, puts one back at the true deadline for exactly the sessions found in time, and does nothing else |
| `KeepAliveRuns.HeardIsSpared` | mqtt/src/managesession.cpp:55-137 | over every run: a session heard of at time u, registered and alone on a live transport, is so after any pass before u + 1500 * keepAlive |
| `KeepAliveRuns.PassSparesIff` | mqtt/src/managesession.cpp:89-137 | over every run, of a registered, connected session with a nonzero keep-alive alone on its live transport: it stays so in a pass at time now if and only if lastActivity + 1500 * keepAlive is after now (section 3.1.2.10) |
| `BrokerRuns.StepKeepsKeepAlive` | mqtt/src/managesession.cpp:62-137 | every step keeps: at most one expiry entry a session; each connected session with live transport and keep-alive has one keyed no later than its deadline |
| `BrokerRuns.StepKeepsStorage` | mqtt/src/packethandlers.cpp:168-342 | every step keeps every session's maps in agreement with its history |
| `BrokerRuns.StepKeepsInv` | mqtt/src/packethandlers.cpp:55-387 | every step of the broker keeps all invariants |
| `BrokerRuns.ReachableStates` | mqtt/src/packethandlers.cpp:55-387 | every reachable state has all invariants |
| `ReachableSessions.StepRecords` | mqtt/src/packethandlers.cpp:168-342 | each step adds to a session's history exactly the event it is for it, and then deliveries only |
| `ReachableSessions.HistoriesOnlyGrow` | mqtt/src/packethandlers.cpp:168-342 | over every run a session's history only grows |
| `ReachableSessions.EverySession` | mqtt/include/mqttsession.h:64-124 | in every reachable state, of every session: both maps hold exactly what the history says, with well-formed packets, and acceptances are conserved |
| `ReachableSessions.PubrelRoutesExactlyOnce` | mqtt/src/packethandlers.cpp:293-320 | over every run a PUBREL routes the packet of exactly one accepted event, which no other PUBREL up to any later state releases (section 4.3.3); an id not held routes nothing |
| `Retransmissions.EveryEntryWasDelivered` | mqtt/src/managesession.cpp:139-147 | in every reachable state every retransmission entry has a delivery in its session's history, with its id and its due time |
| `Retransmissions.PassFinds` | mqtt/src/managesession.cpp:149-174 | over every run, of every entry once due: the pass resends if and only if its session lives and some event holds its id, and stops otherwise; it resends the holder's packet, and that is the delivered one if and only if the delivery itself holds the id |
| `Retransmissions.SendsStoredMeans` | mqtt/src/packethandlers.cpp:26-52 | the steps that send a stored packet: a PUBREL routes it as it is, a retransmission pass routes it with its DUP flag true, a CONNECT over the session's own transport writes it there with its DUP flag true |
| `Retransmissions.ConnectWrites` | mqtt/src/packethandlers.cpp:55-166 | every CONNECT writes its CONNACK, and before it something else if and only if it resumes a session over the session's own transport |
| `Retransmissions.ResendWrites` | mqtt/src/packethandlers.cpp:90-109 | and that is each stored PUBLISH once, with its DUP flag true, and then each stored PUBREL once, in any order, and nothing else |
| `Retransmissions.EventIsHeldPacket` | mqtt/include/mqttsession.h:64-124 | a step that sends what event j stored sends the packet of event j |
| `Retransmissions.OthersPublishNothing` | mqtt/src/packethandlers.cpp:55-387 | a step that is neither the PUBLISH of a QoS 0 or 1 packet nor sends a stored one writes no PUBLISH and queues none |
| `Retransmissions.RetransmitRoutesIff` | mqtt/src/managesession.cpp:153-174 | over every run, of every session: a pass routes what event j stored if and only if the entry names that session and that event's id, the event was accepted and its id has not been removed since |
| `Retransmissions.ConnectSendsIff` | mqtt/src/packethandlers.cpp:90-109 | over every run, of every session: a CONNECT sends what event j stored if and only if it resumes that session over its own transport, the event was accepted and its id has not been removed since |
| `Retransmissions.EventFromStep` | mqtt/src/packethandlers.cpp:168-342 | over every run every event of a history that is not a delivery was recorded by an earlier step of its kind, at that place |
| `Retransmissions.RoutedByOneStep` | mqtt/src/packethandlers.cpp:55-320 | exactly once (section 4.3.3) of what a session itself holds: for a session without a delivery so far, what an event stored there is routed by at most one step, a PUBREL, and by one if and only if the next removal of its id is a PUBREL; any other step that sends it from there comes before that one and is a CONNECT over the session's own transport. The subscribers' copies are events of their sessions: see `Copies` |
| `Retransmissions.SentByOneStep` | mqtt/src/packethandlers.cpp:55-320 | with at most one CONNECT on a transport, that PUBREL is the only step that sends it from there |
| `Deliveries.PassSetsDup` | mqtt/src/managesession.cpp:162-166 | over every run a retransmission pass writes only PUBLISH packets that are the stored one with its DUP flag true (section 3.3.1.1), at its QoS or lower and otherwise unchanged, and records only such deliveries |
| `Deliveries.ResumptionSetsDup` | mqtt/src/packethandlers.cpp:26-52 | over every run each PUBLISH that a CONNECT writes is one that the resumed session has stored, under the id it is stored under, on its own transport, with its DUP flag true and otherwise unchanged |
| `Deliveries.RoutingKeepsDup` | mqtt/src/managesession.cpp:186-206 | over every run each PUBLISH that a PUBLISH or PUBREL step writes is the packet it routes, at its QoS or lower and otherwise unchanged, its DUP flag included |
| `Deliveries.IdsComeInTurn` | mqtt/include/mqttsession.h:54-61 | over every run the ids of a session's deliveries are 2, 3 and so on to 65535, then 1, 2 and so on: never 0 |
| `Deliveries.SameIdIff` | mqtt/include/mqttsession.h:54-61 | so two deliveries to one session have the same id if and only if a multiple of 65535 deliveries lies between them |
| `Copies.RouteAdds` | mqtt/src/managesession.cpp:186-244 | all that routing a packet adds to any session's history are deliveries of that packet, each with a QoS of its own |
| `Copies.RouteAddsIff` | mqtt/src/managesession.cpp:193-232 | it adds any if and only if some match is sent above QoS 0 |
| `Copies.RecordedAreCopies` | mqtt/src/managesession.cpp:215-232 | over every run, every delivery recorded by a step that sends what event j stored is that packet, with the same topic, payload and packet id, but for its QoS and DUP flag |
| `Copies.SendsEventIff` | mqtt/src/packethandlers.cpp:55-320 | over every run, of every session and event: a step sends what the event stored if and only if it is a PUBREL or a pass that names the session and the packet's own id, or a CONNECT that resumes it over its own transport, the event was accepted and its id has not been removed since |
| `Copies.CopyIsSentIff` | mqtt/src/managesession.cpp:153-174 | so of a subscriber's copy, after the step that recorded it, with the publisher's packet id as the id: a pass over an entry with that id of the subscriber's session sends it to everybody again, and so do the subscriber's own PUBREL and CONNECT |
| `Copies.CarriedOnceIff` | mqtt/src/managesession.cpp:153-232 | over every run: a step that sends a packet is the only one that sends it or a copy of it, of any generation, if and only if no other step sends the packet itself and none of the copies that the step recorded is ever sent |
| `Copies.CarriedByOneStepIff` | mqtt/src/packethandlers.cpp:293-320 | exactly once (section 4.3.3), copies of every generation included: over every run with at most one CONNECT on a transport, of a session without a delivery, what event j stored is carried by exactly one step if and only if a PUBREL has released it and none of the copies that this PUBREL left is ever sent |
| `Copies.CopiesRestIff` | mqtt/src/managesession.cpp:153-174 | and none is if and only if no later step is about the packet's id in a session where that id was free when the copy came and has not been removed since |
| `Copies.LeavesCopiesIff` | mqtt/src/managesession.cpp:224-232 | a PUBREL leaves copies if and only if it sends the packet to some match above QoS 0, and if it leaves none, none is ever sent |
| `Retransmissions.BlockedForever` | mqtt/src/managesession.cpp:149-184 | over every run: a due, strictly least retransmission entry whose session has been freed stays, and stays on top, in every later state |
| `Retransmissions.NothingIsRetransmitted` | mqtt/src/managesession.cpp:149-184 | so from then on no step of the run retransmits anything, whoever it was delivered to |
| `SessionFates.EverySessionWasBorn` | mqtt/src/packethandlers.cpp:144-151 | over every run each session was made by one CONNECT and keeps the transport of that CONNECT |
| `SessionFates.NoSharedTransport` | mqtt/src/packethandlers.cpp:144-151 | over every run with at most one CONNECT on a transport, no two sessions have the same transport |
| `SessionFates.NoLiveSessionIsCutOff` | mqtt/src/managesession.cpp:89-137 | over every such run an expiry pass leaves every registered session whose deadline is ahead on its live transport |
| `SessionFates.FreedStaysFreed` | mqtt/src/managesession.cpp:41-53 | a session that has been freed is never registered again |
| `SessionFates.DeadEntryIsForever` | mqtt/src/managesession.cpp:98-121 | an expiry entry of a freed session is in the heap in every later state |
| `SessionFates.LaterPassesHang` | mqtt/src/managesession.cpp:98-121 | so no pass at or after its key ever completes |
| `SessionFates.OfflineForever` | mqtt/src/packethandlers.cpp:90-109 | over every run a session that is once not connected never is again, whatever its client resumes: no delivery is recorded for it and its queue only grows |
| `JointRuns.SubscriptionsAreNamed` | mqtt/src/managesession.cpp:246-253 | over every run of broker and tree: every subscription in the tree's history names a session object of the client that made it |
| `JointRuns.SubscribeEnters` | mqtt/src/packethandlers.cpp:213-230 | over every run of broker and tree: a SUBSCRIBE of a registered client subscribes its session to each filter with a QoS up to 2, in order and at that QoS, and does nothing else to the tree; of any other client it does nothing to it |
| `JointRuns.RouteWrites` | mqtt/src/managesession.cpp:186-244 | routing to matches of different sessions writes, in order, one packet for each whose session is registered, connected and can be written to, at the running minimum of the QoS and with that session's next packet id; a match does not disturb the others |
| `JointRuns.RoutedFinds` | mqtt/src/managesession.cpp:186-192 | over every run of broker and tree: a PUBLISH with QoS 0 or 1, a PUBREL that releases a packet and a retransmission pass, of a topic without wildcards, each find every client once whose latest operation that reached the topic was a subscribe, with the session and QoS of that subscribe, and nobody else |
| `JointRuns.FoundSessions` | mqtt/src/managesession.cpp:186-192 | and these are different session objects, each of the client that it was found for |
| `JointRuns.RoutedIsWritten` | mqtt/src/packethandlers.cpp:168-320 | over every run of broker and tree: such a step writes exactly one packet to each of them that is registered, connected and can be written to, in order, with its next packet id and at the running minimum of the QoS, then the PUBACK of a QoS 1 packet or the PUBCOMP of a PUBREL, and nothing else |
| `JointRuns.FreedSubscriberIsDeaf` | mqtt/src/managesession.cpp:193-206 | over every run of broker and tree: of none of these steps does a client get anything whose latest subscribe names a session that has been freed, although it is found and may be connected with another session |
| `ExampleRuns.PassRoutesOwnPacket` | mqtt/src/managesession.cpp:153-174 | a run of broker and tree in which the pass sends the client's own accepted QoS 2 packet before its PUBREL, which sends it again |
| `ExampleRuns.OwnTransportResends` | mqtt/src/packethandlers.cpp:90-109 | a run of broker and tree, without any delivery to the client, in which a CONNECT over the client's own transport writes its unreleased QoS 2 packet back to it, and the PUBREL then routes it |
| `ExampleRuns.EarlierSubscriberLowersQos` | mqtt/src/managesession.cpp:202-203 | a run of broker and tree in which a QoS 1 subscriber listed behind a QoS 0 one gets a QoS 1 packet at QoS 0 |
| `ExampleRuns.SharedTransportIsCut` | mqtt/src/managesession.cpp:123-132 | a run in which two clients connect over one transport, and the expiry of one cuts off the other long before its deadline |
| `ExampleRuns.DeliveryCollision` | mqtt/src/managesession.cpp:229-231 | a run of broker and tree in which a packet delivered under the same id makes the client's PUBREL route the delivered packet instead of its own |
| `ExampleRuns.CleanReconnectIsDeaf` | mqtt/src/packethandlers.cpp:80-88 | a run of broker and tree in which a client subscribes, connects anew with a clean session, and is found by a PUBLISH of which nothing is written to it |
| `ExampleRuns.CopyIsSentAgain` | mqtt/src/managesession.cpp:153-174 | a run of broker and tree, each client on its own transport, in which a QoS 2 packet is written to its one subscriber by the PUBREL and again, under another packet id, by a pass that finds the subscriber's copy |
| `ExampleRuns.FreedTopBlocks` | mqtt/src/managesession.cpp:153-179 | a run of broker and tree that leads to a retransmission heap blocked for ever |
| `ExpiryTermination.EntriesStayAliveIff` | mqtt/src/managesession.cpp:98-121 | while every entry's session is alive, a step leaves it so if and only if it frees no session that still has an entry |
| `ExpiryTermination.NoPassHangs` | mqtt/src/managesession.cpp:98-121 | over every run in which no step does that, no pass over the expiry heap can hang |
| `ExpiryTermination.ReconnectLeavesDeadEntry` | mqtt/src/packethandlers.cpp:80-88 | a concrete run: two CONNECTs of one client with a clean session leave an entry whose session is freed |
| `PacketHandlers.StoreOnce` | mqtt/src/packethandlers.cpp:197-200 | the packet is stored if and only if its id was free |
| `PacketHandlers.PublishHandler` | mqtt/src/packethandlers.cpp:168-211 | the PUBLISH step: QoS 0 and 1 routed to what the tree finds, QoS 2 held and never routed here; any other body is an error that changes nothing |
| `PacketHandlers.RouteReleased` | mqtt/src/packethandlers.cpp:307-313 | the held packet, if there is one, is taken out and routed to what the tree finds for its topic |
| `PacketHandlers.PubrelHandler` | mqtt/src/packethandlers.cpp:293-320 | the PUBREL step, PUBCOMP always, with the return code telling whether something was routed; any other body is an error that changes nothing |
| `PacketHandlers.PubackHandler` | mqtt/src/packethandlers.cpp:245-265 | the PUBACK step, or a null session |
| `PacketHandlers.PubrecHandler` | mqtt/src/packethandlers.cpp:267-291 | the PUBREC step, or a null session |
| `PacketHandlers.PubcompHandler` | mqtt/src/packethandlers.cpp:322-342 | the PUBCOMP step, or a null session |
| `PacketHandlers.PingreqHandler` | mqtt/src/packethandlers.cpp:371-387 | the PINGREQ step; its return code is the error code |
| `PacketHandlers.SubscribeHandler` | mqtt/src/packethandlers.cpp:213-243 | the SUBSCRIBE step; the filters with a valid QoS join the tree's history in order, and each is answered in order; any other body is an error that changes nothing |
| `PacketHandlers.TakeOverSession` | mqtt/src/packethandlers.cpp:72-88 | a connected session of the same id loses its transport; a clean session is dropped |
| `PacketHandlers.ResendMap` | mqtt/src/packethandlers.cpp:26-52 | every entry of the map is sent again, each once, in arbitrary order |
| `PacketHandlers.ResendAll` | mqtt/src/packethandlers.cpp:90-109 | if the session's transport can still be written to, its stored PUBLISH packets go out again and then its stored PUBRELs; otherwise nothing does |
| `PacketHandlers.AdmitSession` | mqtt/src/packethandlers.cpp:80-146 | resumed, registered or neither, as flags and level demand; what a resumed session has stored is sent again if its transport can be written to |
| `PacketHandlers.ConnectHandler` | mqtt/src/packethandlers.cpp:55-166 | the CONNECT step, with what it sends again, its CONNACK and return code; a new session object if and only if one is registered; any other body is an error that changes nothing |
| `MqttSessions.FramesAreDecoded` | mqtt/src/unpack.cpp:194-209 | whatever is decoded has a body that fits its type and a nonzero length |
| `MqttSessions.MqttSession.Dispatch` | mqtt/src/mqttsession.cpp:38-56 | every decoded packet is handled as the step its type and fields say, with the matches that the tree returns and with the transport held while its packet is routed or its CONNECT answered; a SUBSCRIBE adds its filters to the tree's history and nothing else but a match does; UNSUBSCRIBE is no step; a refused CONNECT also loses its transport |
| `MqttSessions.MqttSession.HandlePacket` | mqtt/src/mqttsession.cpp:38-56 | the same, from a state with all invariants to one with all invariants; the run of broker and tree that led there goes on by exactly the packet's steps |
| `MqttSessions.MqttSession.HandleBadFrame` | mqtt/src/mqttsession.cpp:64-72 | the transport is closed and a clean session dropped, or a null session is met |
| `MqttSessions.MqttSession.ParseData` | mqtt/src/mqttsession.cpp:15-73 | decode one frame, erase exactly its bytes, and act on it, on broker and tree, keeping all invariants, for every content of the buffer; the run goes on by exactly the frame's steps, none for a partial frame |
| `MqttSessions.DispatchedExtends` | mqtt/src/mqttsession.cpp:38-56 | whatever dispatch does to broker and tree are the next steps of any run of both that has come there: the packet's, and after a refused CONNECT the loss of its transport |
| `MqttSessions.DispatchedKeepsInv` | mqtt/src/mqttsession.cpp:38-56 | whatever dispatch does to the broker keeps the invariants |
| `MqttSessions.PublishFindsLatest` | mqtt/src/mqttsession.cpp:38-56 | a dispatched PUBLISH with QoS 0 or 1 to a topic without wildcard levels goes to each client once whose latest operation that reached the topic was a subscribe, with that subscription, and to nobody else |
| `BrokerLoop.StartBroker` | mqtt/src/managesession.cpp:5-7 | a new broker has all invariants, and a run of no steps |
| `BrokerLoop.NewConnection` | mqtt/include/broker.h:82-85 | a new transport with its handler: the next step of the run |
| `BrokerLoop.CloseConnection` | mqtt/include/broker.h:77-81 | a hang-up: the next step of the run |
| `BrokerLoop.Expire` | mqtt/include/broker.h:93 | the expiry pass hangs if and only if a due entry's session has been freed, and is the next step of the run otherwise |
| `BrokerLoop.Retransmit` | mqtt/include/broker.h:94 | the retransmissions go on until none can be sent, and each pass of theirs is a step of the run |
| `BrokerLoop.DrainExtends` | mqtt/src/managesession.cpp:149-184 | the passes of a drain, with what the tree returned to each, are the next steps of any run that has come there |
| `BrokerLoop.Maintain` | mqtt/include/broker.h:92-94 | the end of every round of the loop: it hangs exactly as said, and otherwise the run goes on to a state with all invariants and nothing left to send again |

## Left out

- Sockets, epoll, the thread pool, logging and the core library (`core/utils.h`, the base `Session` and `SessionManager`): not part of this model. `pack_string16`, `unpack_string16` and the like are modelled as big-endian length-prefixed strings, as the standard has them.
- Mutexes and data races: steps are atomic.
- A transport that has been taken out of the session table and still has frames waiting to be parsed: the code keeps it alive until then for every handler, the model for the handlers of its own packets only.
- The byte output of acknowledgements, SUBACK and CONNACK, and `build_publish`: `pack_ack` pushes a 16-bit id as one byte, `pack_suback` does not shift the type, and `build_publish` writes packet id 0, so no round trip holds; sends are abstract outputs.
- Decoding of PINGREQ and DISCONNECT: both types lie outside the 11-entry decode table; the outcome is `OffTable`. What follows an out-of-table read, an exception or a null session is not modelled.
- An UNSUBSCRIBE whose unsigned count passes zero: the decoder reads on past the frame; the outcome is `RanAway`, and what it reads is not modelled.
- The loop that calls `parseData` again lives in the base class; `Receive.Receiver.Deliver` takes it to run until a partial packet.
- The branch of `routePacket` for other packets than PUBLISH: nothing calls it.
- Draining of `message_queue` and the `subscriptions` set of a session: nothing reads either.
- Receiver buffers longer than an `int` can count, and wrap-around of the 64-bit clock.
- Later assignment of `client_id` to a session: it is constant here, since a session is registered under its own id only.
- `std::priority_queue` internals: the heap is a sequence whose first entry has the least key.
- PacketHandlers.PublishHandler: assumes, as the decoder guarantees, that a PUBLISH body comes under a PUBLISH header; the branch of `routePacket` for another header is left out.
- Receive.DeliverAll: stated for streams of well-formed frames of the types that have a decoder; other streams are covered by `Unpack.UnpackPacket` one frame at a time.
