# copycat: a verified model

copycat follows the binlog of a MariaDB server on one leader node. The leader numbers every row change, keeps a
checkpoint (file, position, event index) in a cache file, and sends events and checkpoints to the other nodes over
a framed TCP protocol; every node pushes events to its subscribers over a second framed protocol. If the leader
fails, another node takes over from the last checkpoint it was sent.

This project models the parts of that whose correctness is not visible in any single function, and proves:

- **One numbering for the whole cluster.** Whatever nodes lead, crash, restart, take over and connect to each other,
  over byte streams that are read in any pieces and break anywhere, the rows delivered by all of them are a contiguous
  range of the binlog, and a row delivered more than once has the same event index every time (`Cluster`, `Failover`;
  one failover is carried through step by step in `FailoverRun`).
  The steps that keep this are characterised exactly. Every promotion, installation and restart that is not among them
  is shown to lead to a misnumbered row. Behind a torn checkpoint the next connection installs what is none: torn within
  its length it makes the node lead, after a restart, from the master's position with number 0; torn within its file
  name it leaves the node unable to take over (`Renumbering`).
- **No row is lost to a subscriber.** A follower's subscribers see every row from the beginning of a connection on, under
  its own index, through the loss of the leader, the follower's own crashes, restarts and promotions, and new connections,
  as long as three tests hold that can be made beforehand: its upstream passes on a foreign checkpoint only within the
  rows it has sent on the connection, it connects again only to a node that has not come further than its subscribers, and it is
  promoted only at a position they have come to (`Subscribers`). A relay or a new connection that fails its test
  jumps over rows, and no promotion brings them back (`LostRows`).
- **Two byte streams, cut anywhere.** Agent frames and subscriber packets are reassembled from arbitrary reads. The
  agent's buffer is modelled with its backing array, because decoding reads stale bytes beyond the length and depends
  on them (`AgentNode`).
- **Causal order.** Through records, packets, frames, queue, byte stream, decoder and dispatcher, a follower that
  installs a checkpoint has already forwarded exactly the events the checkpoint covers, and is then where the leader
  was, in position and index, when it sent it (`CausalOrder`).
- **Registers, tables and mirrors.** The cache file behaves as a register although it is never truncated; the waiter
  table closes every channel at most once, and a round of the timeout loop closes exactly those older than six seconds;
  exactly the checkpoints saved before the exit are written; topic lists, Consul snapshots, server tables and SET
  columns are treated in the same way.

Several properties hold only under a condition. There the code is kept as it is and the condition is proved exact, or
an input is given with which the property fails:

- A client's buffer is not emptied when its connection ends. The next connection works exactly if the last one ended
  between two frames, or two packets; otherwise a checkpoint or event is put together from the two
  (`AgentItems.ReconnectSurvives`, `SubscriberClient.ReconnectSurvives`, `Renumbering.TornConnectRenumbers`).
- An event precedes a checkpoint on a connection exactly as their indices say if and only if every operation is in step
  with what is already there (`CausalOrder.LeaderOrder`); a checkpoint installed and passed on may not be.
- A stream of agent frames survives every cutting exactly if no frame, with what a read may bring along behind it,
  exceeds the maximal length (`AgentNode.FrameSizes`), and a cutting is survived exactly if its first bytes bring a
  header (`AgentNode.ChunkingIndependence`). A frame that arrives in part behind garbage may be completed from stale bytes
  (`AgentCodec.PartialBehindGap` and its neighbours).
- A listener of the Consul watcher knows addresses and leader tags exactly as long as none changes without the status
  (`WatchService.RoundReconstructs`).
- A name in the cache file may have 494 bytes, a topic 2^24 - 4, a SET column distinct and nonempty members; two
  services must not share an address that is given up; a channel must still be registered when its response is sent on.

## How it is built

Go's `int` is 64 bits wide (`Makefile:59`). Bytes are numbers below 256, `>>` and `byte(..)` are division and
remainder, `|` of bytes shifted to disjoint places is a sum (`Bytes.OrOfBytesIsSum`), and conversions to int64 wrap.
A slice expression or index out of range is an explicit panic, recovered where the code recovers it. Code that updates
fields and buffers is modelled by classes whose methods update theirs; each method is proved equal to a function on values, and
the theorems are about those functions. Concurrent code is a state machine whose steps are the lock-protected sections.

| file | models |
|---|---|
| `Wrappers`, `Bytes`, `GoSlice`, `Streams` | options, bytes and integers, slices with a backing array, streams made of parts |
| `PosRecord`, `CacheFile` | the checkpoint record and the file that holds it |
| `BinlogHandler`, `BinlogStatus`, `FieldDecode` | the binlog service of one node |
| `AgentCodec`, `AgentNode`, `AgentLink`, `AgentItems`, `CausalOrder`, `Waiters` | the agent protocol |
| `Cluster`, `Failover`, `FailoverRun`, `Renumbering`, `Subscribers`, `LostRows` | many nodes, with crashes, failover and broken connections |
| `ServiceUtil`, `SubscriberNode`, `SubscriberClient` | the subscriber protocol |
| `WatchService`, `ServiceMirror` | following Consul |

Assumptions about the environment, stated in the model: `RunFrom(p)` delivers the rows after `p` in order, and fails
if there is no such position, which ends the runner; `OnPosSynced(p)` is called when exactly the rows before `p` have been delivered; a binlog's rows can be numbered
within an int64; the text of an event tells its row and number; `WriteAt` is atomic and a read fills as much of its
buffer as the file has; TCP is a FIFO of bytes that may break off; JSON parsing, lower-casing, field decoding and connection counts are arbitrary functions.

## Model

| member | source | states |
|---|---|---|
| PosRecord.PackPos | binlog/binlog_util.go:12-40 | the array filled in place holds exactly the record layout: length, position, index, file name, little-endian |
| PosRecord.RoundTrip | binlog/binlog_util.go:43-58 | a packed checkpoint unpacks to itself, for every int64 position and index and whatever bytes follow, if and only if the name plus 16 fits the two length bytes |
| PosRecord.UnpackRecord | binlog/binlog_util.go:52-57 | what unpacking makes of any record, too long names and truncated data included |
| CacheFile.ReadRecord | binlog/binlog_handler.go:276-294 | a file that begins with a record is read back as that record if and only if its name has at most 494 bytes, and as no checkpoint from 495 to 65519 |
| CacheFile.RefinesRegister | binlog/binlog_handler.go:252-294 | after any history of overwriting, never truncating saves of records of any lengths, over any old file, a restart reads the last one, exactly if its name fits |
| BinlogHandler.Binlog.constructor | binlog/binlog_handler.go:22-56 | a process start takes index and position from the cache file, clamped to the master's position in the same file, or starts at the master's position |
| BinlogHandler.Binlog.OnPosSynced | binlog/binlog_handler.go:226-237 | the current index is packed with the new position, saved, broadcast, and the position becomes the last one |
| BinlogHandler.Binlog.SaveBinlogPosition | binlog/binlog_handler.go:242-248 | a leader's record replaces position and index, is saved and passed on; a record too short panics and changes nothing |
| BinlogHandler.Binlog.SaveBinlogPositionCache | binlog/binlog_handler.go:252-272 | nothing is written or broadcast once exiting; otherwise the file is overwritten if open, and the record broadcast |
| BinlogHandler.Binlog.OnRow | binlog/binlog_handler.go:106-180 | one notification per row, or per before/after pair, with the event's table and action and consecutive wrapped indices; each has an entry for every column and no other, which is the decode of that column's own cell of that row, or nil beyond its end, although all the maps it is built from are shared objects that are reused; none when exiting; an odd update panics after taking one number more |
| BinlogHandler.GoMap.Fill | binlog/binlog_handler.go:139-146 | filling a map that still holds an earlier row of the same columns leaves exactly this row in it: every column's own cell decoded, or nil, and nothing of the earlier row |
| BinlogHandler.DecodeRowAt | binlog/binlog_handler.go:166-173 | the entry of column `k`, its name not occurring behind it, is the decode of cell `k` of the row, or nil if the row is too short |
| BinlogHandler.NotificationsTell | binlog/binlog_handler.go:131-180 | the `i`-th notification of an update tells of rows `2 i` and `2 i + 1`, that of an insert or delete of row `i` |
| BinlogHandler.DecodeRowKeys | binlog/binlog_handler.go:139-155 | a decoded row has an entry for every column and for nothing else, which is why reuse leaves no residue |
| Cluster.StepKeepsInvIffSafe | binlog/binlog_handler.go:226-248 | of all steps of all nodes, reads of any size and broken connections included, exactly the safe ones keep the common numbering and whole frames on every connection: promotion only with the persisted index equal to the current one, a checkpoint at a running node only with its own index, a restart only with no row between the resumed position and the persisted one, a connection only with an empty buffer |
| Cluster.ConnectLink | agent/client.go:252-268 | a new connection carries whole frames behind what the buffer holds if and only if the buffer is empty |
| Failover.OneNumbering | binlog/binlog_handler.go:106-180 | over any safe run from a fresh cluster: same row if and only if same index, the index is the first leader's plus the row's ordinal, and the delivered rows are exactly a contiguous range |
| Failover.ReceiveSettles | agent/agent.go:155-176 | a node that is not running and installs a checkpoint has it in its cache file and in memory |
| Failover.StaysSettled | binlog/binlog_handler.go:22-56 | it stays so under every safe step of any node, its own crash and restart included, until it is promoted |
| Failover.SettledResumes | binlog/binlog.go:106-118 | its promotion is safe and resumes at a checkpoint some leader made, with the number that belongs to it |
| Failover.Failover | binlog/binlog.go:106-118 | the three together over whole runs: after any safe run, an installed checkpoint, and any later run without promotion of that node, it can be promoted and continues the numbering |
| Failover.CrashRestart | binlog/binlog_handler.go:22-56 | after a crash and a safe restart, redelivery begins exactly after the last persisted checkpoint, with its index |
| Failover.PersistedNotAhead | binlog/binlog_handler.go:226-237 | in every safe run the persisted index of a running node is at most its current one |
| Failover.CrashEndsConnections | agent/client.go:236-241 | a crash ends every connection to and from the node; what a follower's connection has taken still arrives, and nothing else of the follower changes |
| FailoverRun.FailoverHappens | binlog/binlog.go:106-118 | from any fresh cluster: connect, row, checkpoint, two reads and installations, crash of the leader, promotion and the next row are all possible and safe, deliver the two rows once each with successive numbers, and the follower's subscribers have been sent both |
| Renumbering.UnsafeStepMisnumbers | binlog/binlog_handler.go:226-248 | every unsafe promotion and every unsafe installation makes a node run with a wrong index, and after every unsafe restart a promotion that looks safe does |
| Renumbering.WrongRow | binlog/binlog_handler.go:106-180 | a node that runs with a wrong index delivers as its next row one whose number is not its own |
| Renumbering.StopAndStartRenumbers | binlog/binlog.go:147-153 | an in-process stop and start between checkpoints delivers a row again under a different index |
| Renumbering.UnseededPromotion | binlog/binlog_handler.go:49-52 | a node started with an empty cache can lead without renumbering only if the master's position happens to have number 0 |
| Renumbering.RestartGuardSuffices | binlog/binlog_handler.go:40-48 | a restart is safe whenever the code's own guard does not fire: the cached position is not ahead of the master's in the same file |
| Renumbering.ClampedRestart | binlog/binlog_handler.go:44-48 | when it fires, the node resumes at the master's position with the persisted index, which is safe if and only if no row lies between that position and the persisted one |
| Renumbering.CutTears | agent/client.go:236-241 | a connection that breaks anywhere within a checkpoint's frame leaves exactly the bytes read in the buffer |
| Renumbering.TornConnects | agent/client.go:252-268 | a new connection with 22 bytes or more of a torn checkpoint in the buffer is unsafe, and keepalives alone bring enough to complete it |
| Renumbering.TornLengthRenumbers | binlog/binlog_util.go:43-58 | torn within the record's length, what is completed is no checkpoint: installed, it sets the index to 0 and loses the position in memory and file, and after a crash, restart and promotion the node runs from the master's position, with a wrong index if and only if the number there is not 0 |
| Renumbering.TornConnectRenumbers | agent/client.go:252-268 | that as one whole run from the broken connection on, with nothing but keepalives from the other node, every step but the connection being safe |
| Renumbering.TornNameStrands | binlog/binlog.go:106-126 | torn within the file name, the name goes on with a header: as no binlog file has such a name, the node can be promoted neither at once nor after a crash and a restart |
| Subscribers.NoRowLost | agent/agent.go:155-176 | in any safe run after a follower connects to a running leader in which no step leaves a gap, its own crashes, restarts, promotions and new connections included: its subscribers have been sent every row from the connection's first up to the furthest, each under its own number; it leads no further on, and the checkpoint it has installed, in memory or in its file, lies no further on |
| LostRows.RelayedRunsAhead | binlog/binlog_handler.go:242-248 | a follower passes on the checkpoints it installs but not the events; its own follower, having installed such a checkpoint, covers no more than its subscribers have been sent if and only if the checkpoint lies within the rows sent, and otherwise has jumped over the next row |
| LostRows.ReconnectSkips | agent/client.go:252-268 | after a new connection to a running leader and its next checkpoint the follower covers no more than its subscribers have been sent if and only if the leader was not further on than they, and otherwise has jumped over the next row |
| LostRows.NeverServed | binlog/binlog.go:106-118 | a row jumped over stays missing in every safe run, promotions, crashes, restarts and new connections included, in which no other node sends its event, or a checkpoint before it, after all |
| BinlogStatus.ExitIsPermanent | binlog/binlog.go:55-69 | in every interleaving, once the exit bit is set no XOR clears it, no later row is admitted and no later save writes |
| BinlogStatus.CacheHandleIsSafe | binlog/binlog.go:138-179 | in every interleaving the cache handle is closed at most once, never while its bit is set, and never written afterwards |
| BinlogStatus.ShutdownSaveIsSuppressed | binlog/binlog.go:156-160 | the save on the way out, whose index may be ahead of its position, is always suppressed by the exit bit |
| BinlogStatus.SavesUntilExit | binlog/binlog_handler.go:252-272 | in every interleaving exactly the checkpoints saved before the exit bit is set are written, in order, and exactly the rows before it are admitted |
| BinlogStatus.ExitSignalCloses | binlog/binlog.go:138-179 | once the stop loop has taken an exit signal, whatever happens in between, the handle has been closed, once, when it waits for signals again |
| BinlogStatus.LoopGoesOn | binlog/binlog.go:138-179 | in every state the stop loop can take its next section, which brings it nearer to its signals, and no other goroutine moves or blocks it |
| BinlogStatus.NothingLost | binlog/binlog.go:185-197 | in every interleaving the pending rows are those admitted and not finished, and the waiting signals those sent and not taken, in order |
| BinlogStatus.LateFailureBlocksStarts | binlog/binlog.go:119-126 | a runner that fails after a stop sets the running bit again, and every start from then on is ignored |
| FieldDecode.DecodeSet | binlog/binlog_util.go:102-114 | the loop returns the list of the selected members, with its test for an empty result |
| FieldDecode.SplitAccumulated | binlog/binlog_util.go:105-113 | splitting the text on commas yields the selected members in order |
| FieldDecode.SelectedMembers | binlog/binlog_util.go:104-113 | the selected members are those at `i` below 64 whose bit is set in the two's complement of the field, in the order of declaration |
| FieldDecode.DecodedMembers | binlog/binlog_util.go:102-114 | for nonempty, distinct, comma-free members splitting the decoded text yields exactly these, in this order |
| FieldDecode.InvertibleIff | binlog/binlog_util.go:102-114 | for comma-free members every 64-bit field with no bits but theirs can be recovered from the text if and only if none of the members it can select is empty and no two are equal |
| AgentCodec.Encode | agent/codec.go:36-55 | the freshly allocated array holds exactly header, length, id and content |
| AgentCodec.HeaderIndex | agent/codec.go:65 | the first occurrence of the header, or that there is none |
| AgentCodec.GapEndsAtHeader | agent/codec.go:63-71 | the first header in gap and frame is the frame's if and only if the gap contains none and does not end in 255 |
| AgentCodec.DecodeEncode | agent/codec.go:59-90 | a whole frame behind a skippable gap decodes to its id and content with the position of its end, as long as the buffer is within the maximal length, and fails with that error beyond it |
| AgentCodec.DecodePartial | agent/codec.go:64-85 | a frame that has arrived in part is waited for, if the first four bytes of the backing array hold the header, stale or not |
| AgentCodec.HeaderCutBehindGap | agent/codec.go:64-69 | behind a gap, a part that ends within the header is not found, and the buffer is given up |
| AgentCodec.LengthCutBehindGap | agent/codec.go:79-85 | behind a gap, a part that ends within the length is waited for or rejected by a length whose upper bytes are stale |
| AgentCodec.PartialBehindGap | agent/codec.go:79-89 | behind a gap, with the length complete, the frame is waited for exactly as long as gap and part are shorter than the frame; after that it is completed from stale bytes, or the decoder panics if there are too few |
| AgentNode.ClientNode.OnMessage | agent/node.go:135-164 | the loop over the array updated in place leaves the buffer and hands over the messages that the function `Drain` gives, on every input, errors and panics included |
| AgentNode.ClientNode.Append | agent/node.go:142 | appending writes in place within the capacity and otherwise moves to a zeroed array |
| AgentNode.ClientNode.Shift | agent/node.go:155 | the live bytes move to the front of the same array, the bytes behind them stay |
| AgentNode.ShiftKeepsHeader | agent/node.go:155 | after a frame is shifted out the first four bytes of the array hold a header, if need be from stale bytes |
| AgentNode.DrainAligned | agent/node.go:143-163 | on a buffer that starts at a frame boundary the loop takes exactly the complete frames and keeps exactly the rest |
| AgentNode.ChunkingIndependence | agent/node.go:135-178 | for a stream of frames that fit and every cutting into reads, after every read the frames handed over and the bytes kept are exactly those of the stream, if and only if the first bytes arrive with a whole header or find one in the array |
| AgentNode.FrameSizes | agent/codec.go:72-75 | a stream with positive ids comes through every cutting if and only if for every frame its length less one, plus what a read can bring from its last byte on, is at most 1024000 |
| AgentNode.BoundIsSharp | agent/codec.go:72-75 | with at least 4095 bytes behind it a frame fits if and only if its content has at most 1019889 bytes |
| AgentNode.DrainSkipsGaps | agent/codec.go:63-71 | of a buffer of frames separated by garbage the loop delivers every frame in order, skips exactly the gaps and ends empty |
| AgentNode.StaleBytesDelivered | agent/node.go:144-163 | what then reaches the callbacks: a message that ends in stale bytes, or nothing; the part is lost either way |
| AgentNode.ClientNode.AsyncSend | agent/node.go:94-100 | an online node accepts the message and puts its frame at the end of its queue, a closed one does nothing; written bytes and queue remain exactly the frames accepted |
| AgentNode.ClientNode.SendNext | agent/node.go:102-133 | one frame is taken from the queue and written, in part if the write fails, which closes the node; what is written remains a prefix of the frames accepted |
| AgentLink.Server.Broadcast | agent/server.go:123-127 | every online client, and no other, accepts the message and has its frame at the end of its queue |
| AgentLink.Client.OnMessage | agent/client.go:270-315 | the client's loop, with dispatch and recovery from its panics inside, leaves the buffer and takes the actions that the function `DrainTo` gives |
| AgentLink.DispatchPacket | agent/agent.go:155-176 | of a whole packet: an event is forwarded, skipped if it does not parse, and panics if it names no table; a checkpoint is installed, and panics if shorter than 18 bytes; other commands are ignored |
| AgentLink.DispatchPart | services/service_util.go:25-34 | of a packet cut off: it panics without a whole length and is ignored with one, unless it looks like a keepalive |
| AgentItems.FrameBytes | agent/server.go:123-127 | a leader's frames, byte for byte: header, id 1, command, and the event, the record or the keepalive's single 0 |
| AgentItems.BadEvent | agent/agent.go:161-170 | among any items of a read, an event that does not parse is skipped, and one that names no table costs what has been read behind it |
| AgentItems.DispatchItem | agent/agent.go:155-176 | the dispatcher undoes the wiring of the leader: packet, command and record |
| AgentItems.ReadTakes | agent/client.go:270-315 | one read in the middle of a connection: exactly the items it completes are acted on, in order, and the buffer holds the beginning of the next |
| CausalOrder.WrittenIsPrefix | agent/node.go:102-133 | what has arrived is a prefix of the frames the node accepted, whether or not the node is still online |
| AgentItems.LinkIsFifo | agent/client.go:270-315 | on one connection that begins with an empty buffer, for every cutting, the follower has done exactly what the completely received broadcasts call for, in order |
| AgentItems.SplicedCheckpoint | agent/client.go:318-326 | of a checkpoint cut off by the end of a connection, any bytes of the missing length take the place of the rest, and the outcome is installed |
| AgentItems.ReconnectSurvives | agent/client.go:252-268 | whatever the next connection brings, it works as a FIFO if and only if the last one left nothing in the buffer |
| CausalOrder.RowsAsOnRow | binlog/binlog_handler.go:106-180 | the events of the leader's operations carry the numbers `OnRow` gives its notifications |
| CausalOrder.IndicesCountRows | binlog/binlog_handler.go:226-237 | until a checkpoint is installed, a row's number and a checkpoint's index count the rows before them, whatever is synced or sent in between |
| CausalOrder.Perform | binlog/binlog_handler.go:226-248 | the handler's own methods change its state and hand over records as the operations say |
| CausalOrder.CheckpointIsOwn | binlog/binlog_handler.go:226-248 | every checkpoint on the connection is the sender's own right after the operation: its last position, which is the one synced or installed, and its index |
| CausalOrder.LeaderOrder | binlog/binlog_handler.go:226-248 | for every sequence of operations: on the connection an event precedes a checkpoint exactly if its index is at most the checkpoint's, for all of them, if and only if each operation was in step: a row numbered above every checkpoint already there, and a checkpoint, made or passed on, not below any event already there |
| CausalOrder.ForwardsInStep | binlog/binlog_handler.go:226-248 | a sequence in which no older checkpoint is passed on is in step |
| CausalOrder.StepBackBreaksOrder | binlog/binlog_handler.go:242-248 | an instance: a checkpoint made, another passed on, and a row are in order if and only if the one passed on was not older |
| CausalOrder.CausalOrder | agent/agent.go:155-176 | when a follower installs a checkpoint, it has done exactly what was put on the connection before it, and its last position and index become those the leader had right after the operation that made it; if the operations were in step, the events done are exactly those with an index up to the checkpoint's |
| CausalOrder.InstalledIsPrefix | agent/agent.go:171-174 | the checkpoints installed are a prefix of those broadcast on the connection |
| Waiters.StepKeepsInv | agent/client.go:130-227 | every lock-granular step of Send, responses, Wait and the timeout loop keeps the waiter table's invariant |
| Waiters.WaitersInEveryRun | agent/client.go:49-64 | in every run ids are distinct and above 1, a registered waiter is in the table exactly while its channel is open, no channel is closed twice, and Wait returns the content of a received frame with its own id |
| Waiters.WaiterTable.DelWaiter | agent/client.go:130-138 | the waiter of the id, if registered, is closed and removed, and nothing else changes |
| Waiters.WaiterTable.Sweep | agent/client.go:213-226 | whatever order the map is visited in, a registered waiter stays, open and as it was, if and only if it is younger than 6000 ms; the others are closed and removed |
| Waiters.SweepSparesTheYoung | agent/client.go:213-226 | the same of the step, for every waiter in every state: unregistered and closed ones are left alone |
| Waiters.DeleteTakesOne | agent/client.go:130-138 | deleting an id closes and removes its waiter if registered, and leaves every other as it was |
| Waiters.TimeoutCountsFromSend | agent/client.go:145-166 | in every run the age that counts is the time since the call of `Send` |
| Waiters.SendTakesNextId | agent/client.go:145-153 | the id of a waiter is 2 plus the number of ids taken before, by sends, writes and keepalives |
| Waiters.WriteHasOwnId | agent/client.go:172-184 | in every run the id a plain write or a keepalive takes is never a waiter's, so its response reaches none |
| Waiters.WaitDeletesItself | agent/client.go:56-58 | the id taken from the channel data, which Wait deletes, is the waiter's own |
| Waiters.PushReachesIffRegistered | agent/client.go:295-306 | in every reachable state in which the read loop is about to send on the channel it looked up, the data reaches the waiter if and only if the waiter is still registered; otherwise the loop panics and nothing else changes |
| Waiters.ResponseReachesWaiter | agent/client.go:295-306 | a response whose waiter is registered at the look-up and at once sent to reaches its channel |
| Waiters.TimeoutInBetweenPanics | agent/client.go:213-226 | one way to lose the registration in between: the timeout loop |
| Waiters.DuplicateResponsePanics | agent/client.go:49-64 | another: a second response with the same id, looked up before Wait has deleted the waiter |
| ServiceUtil.Pack | services/service_util.go:10-22 | the array holds exactly length, command and content |
| ServiceUtil.PackPro | services/service_util.go:64-80 | the array holds the set-topic packet with the flag in front of the topic |
| ServiceUtil.UnpackPack | services/service_util.go:25-34 | unpacking undoes packing, whatever follows, if and only if the command fits two bytes and the length four |
| ServiceUtil.UnpackPart | services/service_util.go:25-34 | a packet cut off panics without a whole length and is an error with one |
| ServiceUtil.UnpackShort | services/service_util.go:25-34 | a length below 2 panics once the data is there |
| SubscriberNode.TcpClientNode.OnMessage | services/service_tcpnode.go:116-147 | the loop ends in the state, or the panic, that the function `Process` gives, on every input |
| SubscriberNode.TcpClientNode.OnSetProEvent | services/service_tcpnode.go:149-168 | set, ping and unknown flags, and the panic on an empty body |
| SubscriberNode.TcpClientNode.AddTopic | services/service_tcpnode.go:45-54 | the normalised topic is appended if and only if it is not there |
| SubscriberNode.TrimTakesSpaces | services/service_tcpnode.go:46 | what trimming takes off a topic are spaces in front and behind, and what it leaves neither begins nor ends with one |
| SubscriberNode.TrimLeavesCore | services/service_tcpnode.go:46 | what stands between the spaces is left untouched |
| SubscriberNode.ProcessAligned | services/service_tcpnode.go:116-147 | on a buffer that starts at a packet boundary the loop serves exactly the complete requests and keeps exactly the rest |
| SubscriberNode.AddAllIsFirstOccurrences | services/service_tcpnode.go:45-54 | the collected list has every normalised topic once, in the order of first occurrence |
| SubscriberNode.SubscriptionStream | services/service_tcpnode.go:94-168 | for any interleaving of topics, ticks, pings and other flags and any cutting: the read that completes a ping or an unknown flag is the last but served to its end; first occurrences of the normalised topics; as long as the connection is open one reply for each tick and each topic, and one for the ping that ends it, byte for byte; exact leftover |
| SubscriberNode.PaddedTopics | services/service_tcpnode.go:45-54 | for topics with any spaces around them the list is the first occurrences of what stands between, in lower case |
| SubscriberNode.UnsupportedEndsRead | services/service_tcpnode.go:140-143 | behind any requests a packet with another known command is answered with an error that names it, and what else has been read is dropped |
| SubscriberNode.UnknownEndsRead | services/service_tcpnode.go:129-133 | behind any requests a packet with an unknown command drops what else has been read, without an answer |
| SubscriberNode.NoFlagPanics | services/service_tcpnode.go:149-151 | behind any requests a topic packet without a flag panics |
| SubscriberClient.Client.OnMessage | client/tcp.go:421-476 | the loop ends in the state, or the panic, that the function `Process` gives, on every input |
| SubscriberClient.EventStream | client/tcp.go:421-476 | for any packets with known commands and any cutting, a client whose buffer is empty hands over exactly the event payloads in order, counts them, and keeps exactly the unfinished packet |
| SubscriberClient.SplicedEvent | client/tcp.go:391-404 | of an event packet cut off by the end of a connection, any bytes of the missing length take the place of the rest, and the outcome is handed over as an event |
| SubscriberClient.ReconnectSurvives | client/tcp.go:226-261 | whatever the next connection brings, exactly its events are handed over and counted if and only if the last connection left nothing in the buffer |
| SubscriberClient.SetProIsPackPro | client/tcp.go:281-298 | the client's topic packet equals the server's if and only if the length's byte from bit 32 on is that from bit 24 on; below 2^32, if and only if the length fits three bytes |
| SubscriberClient.TickIsPacket | client/tcp.go:263-279 | the client's keepalive is the server's tick packet |
| SubscriberClient.Client.Subscribe | client/tcp.go:204-224 | the list stays free of duplicates and is extended by the new topics in order of first occurrence; on a live connection exactly these are announced, in this order, so that the list has been |
| SubscriberClient.Client.Connect | client/tcp.go:226-261 | a new connection starts with the replay of the list, and with the buffer of the last one |
| SubscriberClient.ServerTopics | services/service_tcpnode.go:45-54 | a fresh server node's topic list depends only on the topics announced on the connection, however it is cut and whatever ticks are between them |
| SubscriberClient.ReconnectPreservesTopics | client/tcp.go:256-259 | the list built step by step before a connection is lost and the list built from the replay are the same |
| WatchService.GetDelete | consul/watch_service.go:181-196 | exactly the entries whose id is not in the other snapshot, in order |
| WatchService.GetChange | consul/watch_service.go:198-215 | for each old entry the first new one with its id and another status |
| WatchService.Watcher.Round | consul/watch_service.go:73-99 | the first snapshot is installed silently, every other fires additions, deletions and status changes, in this order |
| WatchService.RoundTells | consul/watch_service.go:105-168 | the events of a round are exactly: an addition for each new service, a deletion for each one gone, as it was last seen, and a change for each whose status differs, as it is now, with id, address, leader tag, and online if and only if its status is passing |
| WatchService.RoundReconstructs | consul/watch_service.go:94-99 | a listener that knows the services and which are online still does after the events of a round; if it knows addresses and leader tags, too, it still does if and only if neither has changed without the status |
| WatchService.EventsReconstructSnapshots | consul/watch_service.go:49-103 | over any run of snapshots the fold of all events gives the current services and which are online, and addresses and leader tags if none has changed without the status |
| WatchService.SilentRound | consul/watch_service.go:105-124 | a round fires nothing if and only if the same services have the same status, so a leader tag alone goes unnoticed |
| ServiceMirror.ServiceTable.Process | client/watcher.go:59-104 | after a round the table's keys are exactly the snapshot's addresses if and only if the answer can be followed; servers whose address was not removed are the same objects, as they were, and all others are fresh and not offline |
| ServiceMirror.ServiceTable.AddAll | client/tcp.go:130-140 | an address already known keeps its server, a new one gets a fresh server that is not offline |
| ServiceMirror.ServiceTable.ProcessAndChoose | client/tcp.go:326-351 | the next choice after a round: none if and only if the table holds nothing but servers it had before and were offline, so an answer with a new address always leaves one |
| ServiceMirror.RoundMirrors | client/watcher.go:117-132 | deleting what is missing and adding what is new turns one snapshot's addresses into the other's if and only if every entry that stays brings an address that is new or not given up, and leaves none behind |
| ServiceMirror.SharedAddressIsLost | client/watcher.go:79-90 | while services keep their addresses, what is lost are exactly the addresses a staying service shares with a removed one, unless a new one brings them back |
| ServiceMirror.MovedAddressIsMissed | client/watcher.go:59-104 | if no address belongs to two services, at the same time or one after the other, the new answer can be followed if and only if every service that stays keeps its address |
| ServiceMirror.OneToOneIsFollowable | client/watcher.go:59-104 | if services and addresses belong together one to one, every answer can be followed |
| ServiceMirror.ServiceTable.GetMembers | client/watcher.go:134-141 | the initial query replaces the snapshot without deletions, so the table mirrors it if and only if nothing known before has gone; known servers stay as they were, new ones are not offline |
| ServiceMirror.ServiceTable.GetServer | client/tcp.go:326-351 | no server if and only if all are offline, else one that is online and has the least connections |

## Left out

- AgentLink.Client.OnMessage: does not hand responses with an id above 1 to their waiters; that branch is the steps Response and Push of `Waiters`, and a leader's broadcasts all carry id 1.
- AgentNode.ClientNode.AsyncSend: does not model the wait for room in a full queue, only the completed operation; the same holds for the subscriber node's queue.
- AgentNode.ChunkingIndependence: frames with an id of 0 or below are excluded, here and in `FrameSizes`, because they stop the loop without being consumed; the loop itself is modelled on them.
- Cluster.StepKeepsInvIffSafe: promotion of a node whose cache file is empty is treated apart, in `Renumbering.UnseededPromotion`. An event too long for a frame of 1019889 bytes of content, and a read of one to three bytes into a buffer that has never held a header, are no steps; what becomes of them is `AgentNode.FrameSizes` and `AgentNode.ChunkingIndependence`.
- Cluster: the file names of checkpoints have at most 494 bytes, the limit proved in `CacheFile.ReadRecord`; one step delivers one row of an event; the frames a read completes are decoded in one step and acted on one by one.
- Subscribers.NoRowLost: being sent means being handed to the services of the node; subscribers that come and go, and their topics, are in `SubscriberNode` and `SubscriberClient`.
- BinlogHandler.Binlog.OnRow: field decoding is a parameter; of `fieldDecode` only the SET branch is modelled, the reinterpretation of unsigned numbers and the ENUM look-up are not. The time stamp is a parameter.
- SubscriberNode.SubscriptionStream: packets with other commands are no part of the stream, because what becomes of the rest depends on the cutting; `UnsupportedEndsRead`, `UnknownEndsRead` and `NoFlagPanics` are about one read.
- WatchService.Watcher.Round: an answer without any service before the first installation, which the code asks again for, is not a round.
- At most one leader: leadership rests on Consul sessions; promotion and demotion are steps of the environment, and the numbering does not need it.
- The running bit as a sign of a live runner: beyond `BinlogStatus.LateFailureBlocksStarts` its meaning depends on when the MySQL library's runner returns.
- Closing all nodes of a client list: the lists are shifted while they are iterated.
- Sockets, deadlines, logging, HTTP endpoints, configuration, process files, the PHP client and the examples: input and output only.
- MySQL, JSON, regular expressions and Consul calls: library behaviour, taken as arbitrary functions or stated assumptions.
