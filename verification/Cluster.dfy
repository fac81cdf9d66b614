/** A cluster of binlog nodes over one binlog: leaders number rows and persist and broadcast
    checkpoints, followers install them, any node may crash, restart from its cache file, be promoted
    or be demoted. Each lock-protected section is one step. Connections carry bytes, are read in pieces
    of any size, and may break anywhere; what a client has in its buffer when one breaks is still there
    when the next begins.  (binlog/binlog_handler.go, binlog/binlog.go, agent/agent.go, agent/client.go)

    The environment is the binlog itself: `RunFrom(p)` delivers the rows after `p` in order, and
    `OnPosSynced(p)` is called when exactly the rows before `p` have been delivered. */
module Cluster {
  import opened Wrappers
  import opened Bytes
  import opened GoSlice
  import opened Streams
  import opened PosRecord
  import opened CacheFile
  import opened BinlogHandler
  import opened ServiceUtil
  import opened AgentCodec
  import opened AgentNode
  import opened AgentLink
  import opened AgentItems

  type NodeId = nat

  datatype Node = Node(
    st: State,
    up: bool,
    cursor: Option<nat>,        // the next row to deliver, while the binlog service runs
    upstream: Option<NodeId>,   // the node its agent client is connected to
    wire: bytes,                // what is under way on that connection
    buffer: Slice,              // what its agent client has read and not yet decoded
    todo: seq<Action>,          // what the client has decoded and not yet acted on
    served: seq<bytes>)         // the events its subscribers have been sent

  datatype Delivery = Delivery(node: NodeId, row: nat, index: int64)

  datatype System = System(
    nodes: map<NodeId, Node>,
    delivered: seq<Delivery>,   // every row event any node has numbered, in order
    made: set<Checkpoint>,      // every checkpoint a leader has made
    tip: nat)                   // the rows before it have been delivered by some node

  /** The binlog: which positions there are in it, how many rows lie before such a one, the row the first
      leader starts with, and the number that goes with it. The rows can be numbered within an int64. And
      the text of an event: how followers parse it, and what row and number it tells of. */
  datatype Log = Log(known: Position -> bool, ord: Position -> nat, start: nat, base: int, limit: nat,
                     parse: Parser, rowOf: bytes -> nat, indexOf: bytes -> int) {
    predicate Valid() {
      start <= limit && -TWO_63 <= base + start && base + limit < TWO_63
    }
  }

  datatype Step =
    | Row(n: NodeId, json: bytes)          // OnRow, for one row
    | Sync(n: NodeId, p: Position)         // OnPosSynced
    | Keepalive(n: NodeId)                 // one round of the agent server's keepalive
    | Read(n: NodeId, k: nat, extra: nat)  // onMessage: a read of `k` bytes is appended and decoded
    | Do(n: NodeId)                        // onClientMessage, for one message
    | Promote(n: NodeId)                   // OnLeader(true): RunFrom the last position, which fails
                                           //   when there is no such position
    | Demote(n: NodeId)                    // OnLeader(false): the handler is closed and replaced
    | Crash(n: NodeId)
    | Restart(n: NodeId, master: Position) // handlerInit
    | Connect(n: NodeId, m: NodeId)
    | Cut(n: NodeId, kept: nat)            // the connection breaks, what it has taken still arrives

  /** Every node connected to `from` gets the frame at the end of what is under way. */
  function Broadcast(nodes: map<NodeId, Node>, from: NodeId, m: Message): map<NodeId, Node> {
    map n | n in nodes ::
      if nodes[n].upstream == Some(from) then nodes[n].(wire := nodes[n].wire + Frame(m)) else nodes[n]
  }

  /** The end of a process ends its connections; what they have taken still arrives. */
  function Severed(nodes: map<NodeId, Node>, from: NodeId): map<NodeId, Node> {
    map n | n in nodes :: if nodes[n].upstream == Some(from) then nodes[n].(upstream := None) else nodes[n]
  }

  /** The text tells of this row, and fits a frame. */
  predicate Tells(log: Log, json: bytes, row: nat, index: int) {
    && ItemOk(log.parse, Event(json, index))
    && log.rowOf(json) == row && log.indexOf(json) == index
  }

  /** What the environment allows in a state. */
  predicate Enabled(log: Log, s: System, step: Step) {
    && step.n in s.nodes
    && var nd := s.nodes[step.n];
       match step
       case Row(_, json) =>
         && nd.up && nd.cursor.Some? && nd.cursor.value < log.limit
         && Tells(log, json, nd.cursor.value, Wrap64(nd.st.eventIndex + 1))
       case Sync(_, p) =>
         nd.up && nd.cursor == Some(log.ord(p)) && log.known(p) && 0 < |p.file| <= 494 && p.pos > 0
       case Keepalive(_) => nd.up
       case Read(_, k, _) =>
         nd.up && nd.todo == [] && 0 < k <= READ_SIZE && k <= |nd.wire| && (Primed(nd.buffer) || k >= 4) &&
         nd.buffer.Valid()
       case Do(_) => nd.up && nd.todo != []
       case Promote(_) => nd.up && nd.cursor.None? && nd.st.last.file != [] && log.known(nd.st.last)
       case Demote(_) => nd.up
       case Crash(_) => nd.up
       case Restart(_, master) => !nd.up && master.file != [] && log.known(master)
       case Connect(_, m) => nd.up && nd.upstream.None? && m in s.nodes && s.nodes[m].up
       case Cut(_, kept) => nd.up && kept <= |nd.wire|
  }

  /** `onClientMessage` on the follower's state: an event goes to the subscribers, a checkpoint is
      installed. */
  function Acted(nd: Node): Node
    requires nd.todo != []
  {
    match nd.todo[0]
    case Forward(_, data) => nd.(todo := nd.todo[1..], served := nd.served + [data])
    case Install(r) => nd.(todo := nd.todo[1..], st := Installed(nd.st, r))
  }

  function Next(log: Log, s: System, step: Step): System
    requires Enabled(log, s, step)
  {
    var n := step.n;
    var nd := s.nodes[n];
    match step
    case Row(_, json) =>
      var row := nd.cursor.value;
      var index := Wrap64(nd.st.eventIndex + 1);
      var nd' := nd.(st := nd.st.(eventIndex := index), cursor := Some(row + 1), served := nd.served + [json]);
      s.(nodes := Broadcast(s.nodes[n := nd'], n, MessageOf(Event(json, index))),
         delivered := s.delivered + [Delivery(n, row, index)],
         tip := if row + 1 > s.tip then row + 1 else s.tip)
    case Sync(_, p) =>
      var c := Checkpoint(p.file, p.pos, nd.st.eventIndex);
      s.(nodes := Broadcast(s.nodes[n := nd.(st := Synced(nd.st, p))], n, MessageOf(Pos(c))),
         made := s.made + {c})
    case Keepalive(_) => s.(nodes := Broadcast(s.nodes, n, MessageOf(Tick)))
    case Read(_, k, extra) =>
      var (buf, out) := DrainTo(log.parse, nd.buffer.Append(nd.wire[..k], extra));
      s.(nodes := s.nodes[n := nd.(buffer := buf, wire := nd.wire[k..], todo := out)])
    case Do(_) =>
      if nd.todo[0].Install? && UnpackPos(nd.todo[0].record).Some? then
        s.(nodes := Broadcast(s.nodes[n := Acted(nd)], n, Message(1, Packet(CMD_POS, nd.todo[0].record))))
      else s.(nodes := s.nodes[n := Acted(nd)])
    case Promote(_) => s.(nodes := s.nodes[n := nd.(cursor := Some(log.ord(nd.st.last)))])
    case Demote(_) => s.(nodes := s.nodes[n := nd.(cursor := None)])
    case Crash(_) =>
      s.(nodes := Severed(s.nodes[n := nd.(up := false, cursor := None, upstream := None,
                                           wire := [], buffer := EMPTY, todo := [])], n))
    case Restart(_, master) => s.(nodes := s.nodes[n := nd.(st := Restored(nd.st.cache, master), up := true)])
    case Connect(_, m) => s.(nodes := s.nodes[n := nd.(upstream := Some(m), wire := [])])
    case Cut(_, kept) => s.(nodes := s.nodes[n := nd.(upstream := None, wire := nd.wire[..kept])])
  }

  /** A fresh cluster: the cache files are empty, and node `leader` begins with row `log.start`. */
  predicate Initial(log: Log, s: System, leader: NodeId) {
    && log.Valid()
    && leader in s.nodes
    && s.nodes[leader].up && s.nodes[leader].cursor == Some(log.start)
    && s.nodes[leader].st.eventIndex == log.base + log.start
    && (forall n :: n in s.nodes ==>
          var nd := s.nodes[n];
          && nd.st.cache == [] && !nd.st.exiting && nd.st.open
          && nd.wire == [] && nd.buffer == EMPTY && nd.todo == [] && nd.served == []
          && (n != leader ==> nd.cursor.None?))
    && s.delivered == [] && s.made == {} && s.tip == log.start
  }

  /** The position of a checkpoint, as a node keeps it. */
  function PosOf(c: Checkpoint): Position {
    Position(c.file, c.pos % TWO_32)
  }

  /** A checkpoint carries the number of the last row before its position. */
  predicate Good(log: Log, tip: nat, c: Checkpoint) {
    && 0 < |c.file| <= 494 && 0 < c.pos < TWO_32
    && log.known(PosOf(c)) && log.start <= log.ord(PosOf(c)) <= tip
    && c.index == log.base + log.ord(PosOf(c))
  }

  /** The action installs nothing but a checkpoint some leader made. */
  predicate ActionOk(made: set<Checkpoint>, a: Action) {
    a.Install? ==> exists c :: c in made && a.record == Record(c)
  }

  predicate ItemMade(made: set<Checkpoint>, item: Item) {
    item.Pos? ==> item.c in made
  }

  /** Buffer and connection together carry these items, or as much of them as a broken connection has
      taken. */
  predicate Carries(parse: Parser, made: set<Checkpoint>, nd: Node, items: seq<Item>) {
    && Holds(parse, nd.buffer, items)
    && (forall i :: 0 <= i < |items| ==> ItemMade(made, items[i]))
    && GoesOn(Wire(items), nd.buffer.len, nd.wire)
    && (nd.upstream.Some? ==> nd.buffer.len + |nd.wire| == |Wire(items)|)
  }

  ghost predicate LinkOk(parse: Parser, made: set<Checkpoint>, nd: Node) {
    exists items :: Carries(parse, made, nd, items)
  }

  predicate StateOk(log: Log, tip: nat, made: set<Checkpoint>, nd: Node) {
    && !nd.st.exiting && nd.st.open
    && (nd.st.cache != [] ==> ReadBack(nd.st.cache) in made)
    && (nd.st.cache != [] && nd.up ==>
          && nd.st.last.file != [] && log.known(nd.st.last)
          && log.ord(nd.st.last) == log.ord(PosOf(ReadBack(nd.st.cache))))
    && (nd.cursor.Some? ==>
          && nd.up && log.start <= nd.cursor.value <= tip
          && nd.st.eventIndex == log.base + nd.cursor.value
          && (nd.st.cache != [] ==> log.ord(nd.st.last) <= nd.cursor.value))
    && (forall i :: 0 <= i < |nd.todo| ==> ActionOk(made, nd.todo[i]))
  }

  ghost predicate NodeOk(log: Log, tip: nat, made: set<Checkpoint>, nd: Node) {
    StateOk(log, tip, made, nd) && LinkOk(log.parse, made, nd)
  }

  /** What every run keeps: all checkpoints, wherever they are, and all running nodes agree on one
      numbering; every connection carries whole frames behind what the buffer holds; and the delivered
      rows are exactly those from `start` to `tip`, each with the number that belongs to it. */
  ghost predicate Inv(log: Log, s: System) {
    && log.Valid() && log.start <= s.tip <= log.limit
    && (forall c :: c in s.made ==> Good(log, s.tip, c))
    && (forall n :: n in s.nodes ==> NodeOk(log, s.tip, s.made, s.nodes[n]))
    && (forall i :: 0 <= i < |s.delivered| ==> Numbered(log, s.tip, s.delivered[i]))
    && (forall row :: log.start <= row < s.tip ==> Covered(s.delivered, row))
  }

  predicate Numbered(log: Log, tip: nat, d: Delivery) {
    log.start <= d.row < tip && d.index == log.base + d.row + 1
  }

  predicate Covered(delivered: seq<Delivery>, row: nat) {
    exists i :: 0 <= i < |delivered| && delivered[i].row == row
  }

  /** The persisted checkpoint is the one in memory: no row has been numbered since. */
  predicate UpToDate(st: State) {
    st.cache != [] && ReadBack(st.cache).index == st.eventIndex
  }

  /** The steps that keep the numbering: a promotion with the persisted index; a checkpoint at a running
      node only with its own index; a restart at a position with no rows between it and the persisted
      one; and a new connection with nothing left over from the last. */
  predicate Safe(log: Log, s: System, step: Step)
    requires step.n in s.nodes
  {
    var nd := s.nodes[step.n];
    match step
    case Promote(_) => UpToDate(nd.st)
    case Do(_) =>
      nd.cursor.Some? && nd.todo != [] && nd.todo[0].Install? && UnpackPos(nd.todo[0].record).Some? ==>
        UnpackPos(nd.todo[0].record).value.index == nd.st.eventIndex
    case Restart(_, master) =>
      nd.st.cache != [] ==>
        log.ord(Restored(nd.st.cache, master).last) == log.ord(PosOf(ReadBack(nd.st.cache)))
    case Connect(_, _) => nd.buffer.len == 0
    case _ => true
  }

  // ---------- each step keeps the invariant, exactly if it is safe ----------

  lemma StateOkMonotone(log: Log, tip: nat, made: set<Checkpoint>, tip': nat, made': set<Checkpoint>, nd: Node)
    requires StateOk(log, tip, made, nd) && tip <= tip' && made <= made'
    ensures StateOk(log, tip', made', nd)
  {
    hide ReadBack, Record, ActionOk;
    forall i | 0 <= i < |nd.todo|
      ensures ActionOk(made', nd.todo[i])
    {
      ActionMonotone(made, made', nd.todo[i]);
    }
  }

  lemma ActionMonotone(made: set<Checkpoint>, made': set<Checkpoint>, a: Action)
    requires ActionOk(made, a) && made <= made'
    ensures ActionOk(made', a)
  {
    hide Record;
  }

  /** The link does not depend on the rest of the node. */
  lemma SameLink(parse: Parser, made: set<Checkpoint>, nd: Node, made': set<Checkpoint>, nd': Node)
    requires LinkOk(parse, made, nd) && made <= made'
    requires nd'.buffer == nd.buffer && nd'.wire <= nd.wire
    requires nd'.upstream.Some? ==> nd.upstream.Some? && nd'.wire == nd.wire
    ensures LinkOk(parse, made', nd')
  {
    hide Holds, Wire, GoesOn;
    var items :| Carries(parse, made, nd, items);
    GoesOnLess(Wire(items), nd.buffer.len, nd.wire, nd'.wire);
    assert Carries(parse, made', nd', items);
  }

  lemma EnqueueOk(parse: Parser, made: set<Checkpoint>, nd: Node, item: Item)
    requires LinkOk(parse, made, nd) && nd.upstream.Some?
    requires ItemOk(parse, item) && ItemMade(made, item)
    ensures LinkOk(parse, made, nd.(wire := nd.wire + Frame(MessageOf(item))))
  {
    hide Holds, Wire, ItemOk, Frame, MessageOf, GoesOn;
    var items :| Carries(parse, made, nd, items);
    HoldsMore(parse, nd.buffer, items, item);
    GoesOnLonger(Wire(items), nd.buffer.len, nd.wire, Frame(MessageOf(item)));
    var nd' := nd.(wire := nd.wire + Frame(MessageOf(item)));
    assert Carries(parse, made, nd', items + [item]);
  }

  /** Changing one node and broadcasting leaves the other nodes in order. */
  lemma NodesOk(log: Log, s: System, n: NodeId, nd': Node, item: Item, tip': nat, made': set<Checkpoint>)
    requires Inv(log, s) && n in s.nodes && s.tip <= tip' && s.made <= made'
    requires ItemOk(log.parse, item) && ItemMade(made', item)
    requires LinkOk(log.parse, made', nd')
    ensures var nodes' := Broadcast(s.nodes[n := nd'], n, MessageOf(item));
            && nodes'.Keys == s.nodes.Keys
            && ((forall k :: k in nodes' ==> NodeOk(log, tip', made', nodes'[k])) <==> StateOk(log, tip', made', nd'))
  {
    hide StateOk, LinkOk, ItemOk, ItemMade, MessageOf, Frame;
    var nodes' := Broadcast(s.nodes[n := nd'], n, MessageOf(item));
    forall k | k in s.nodes && k != n
      ensures NodeOk(log, tip', made', nodes'[k])
    {
      StateOkMonotone(log, s.tip, s.made, tip', made', s.nodes[k]);
      SameLink(log.parse, s.made, s.nodes[k], made', s.nodes[k]);
      BroadcastOk(log, tip', made', s.nodes[k], n, item);
    }
    BroadcastOk(log, tip', made', nd', n, item);
    assert nodes'[n] == nd' || nodes'[n] == nd'.(wire := nd'.wire + Frame(MessageOf(item)));
  }

  lemma BroadcastOk(log: Log, tip: nat, made: set<Checkpoint>, nd: Node, from: NodeId, item: Item)
    requires LinkOk(log.parse, made, nd) && ItemOk(log.parse, item) && ItemMade(made, item)
    ensures var nd' := if nd.upstream == Some(from) then nd.(wire := nd.wire + Frame(MessageOf(item))) else nd;
            LinkOk(log.parse, made, nd') && (StateOk(log, tip, made, nd') <==> StateOk(log, tip, made, nd))
  {
    hide LinkOk, ItemOk, ItemMade, MessageOf, Frame, ReadBack, ActionOk;
    if nd.upstream.Some? {
      EnqueueOk(log.parse, made, nd, item);
    }
  }

  /** Changing one node without a broadcast. */
  lemma NodeOnlyOk(log: Log, s: System, n: NodeId, nd': Node)
    requires Inv(log, s) && n in s.nodes
    ensures Inv(log, s.(nodes := s.nodes[n := nd'])) <==> NodeOk(log, s.tip, s.made, nd')
  {
    hide NodeOk, Good, Numbered, Covered;
    var s' := s.(nodes := s.nodes[n := nd']);
    assert s'.nodes[n] == nd';
  }

  /** The cache file holds the checkpoint that was saved last. */
  lemma SavedIsRead(log: Log, tip: nat, c: Checkpoint, st: State)
    requires Good(log, tip, c) && !st.exiting && st.open
    ensures Saved(st, Record(c)).cache != [] && ReadBack(Saved(st, Record(c)).cache) == c
  {
    hide ReadBack;
    ReadRecord(c, WriteAt(st.cache, Record(c)));
  }

  lemma GoodUnpacks(log: Log, tip: nat, c: Checkpoint)
    requires Good(log, tip, c)
    ensures UnpackPos(Record(c)) == Some(c)
    ensures forall parse :: ItemOk(parse, Pos(c))
  {
    RoundTrip(c, []);
    assert Record(c) + [] == Record(c);
  }

  /** One more row delivered: the delivered rows are again all those up to the new tip. */
  lemma DeliveredGrows(log: Log, tip: nat, delivered: seq<Delivery>, d: Delivery)
    requires log.start <= d.row <= tip && d.index == log.base + d.row + 1
    requires forall i :: 0 <= i < |delivered| ==> Numbered(log, tip, delivered[i])
    requires forall row :: log.start <= row < tip ==> Covered(delivered, row)
    ensures var tip' := if d.row + 1 > tip then d.row + 1 else tip;
            && (forall i :: 0 <= i < |delivered| + 1 ==> Numbered(log, tip', (delivered + [d])[i]))
            && (forall row :: log.start <= row < tip' ==> Covered(delivered + [d], row))
  {
    var tip' := if d.row + 1 > tip then d.row + 1 else tip;
    forall i | 0 <= i < |delivered| + 1
      ensures Numbered(log, tip', (delivered + [d])[i])
    {
      if i < |delivered| {
        assert Numbered(log, tip, delivered[i]);
      }
    }
    forall row | log.start <= row < tip'
      ensures Covered(delivered + [d], row)
    {
      if row < tip {
        assert Covered(delivered, row);
        var i :| 0 <= i < |delivered| && delivered[i].row == row;
        assert (delivered + [d])[i].row == row;
      } else {
        assert (delivered + [d])[|delivered|].row == row;
      }
    }
  }

  /** The node itself, when a row is numbered. */
  lemma RowState(log: Log, tip: nat, made: set<Checkpoint>, nd: Node, json: bytes)
    requires log.Valid() && StateOk(log, tip, made, nd) && tip <= log.limit
    requires nd.cursor.Some? && nd.cursor.value < log.limit
    ensures var row, index := nd.cursor.value, Wrap64(nd.st.eventIndex + 1);
            var nd' := nd.(st := nd.st.(eventIndex := index), cursor := Some(row + 1), served := nd.served + [json]);
            && index == log.base + row + 1
            && StateOk(log, if row + 1 > tip then row + 1 else tip, made, nd')
  {
    hide ReadBack, ActionOk;
  }

  lemma RowKeepsInv(log: Log, s: System, n: NodeId, json: bytes)
    requires Inv(log, s) && Enabled(log, s, Row(n, json))
    ensures Inv(log, Next(log, s, Row(n, json)))
  {
    hide StateOk, LinkOk, Broadcast, Covered, Numbered, Good, ItemOk, MessageOf;
    var s' := Next(log, s, Row(n, json));
    var nd := s.nodes[n];
    var row, index := nd.cursor.value, Wrap64(nd.st.eventIndex + 1);
    assert NodeOk(log, s.tip, s.made, nd);
    CursorIn(log, s.tip, s.made, nd);
    RowState(log, s.tip, s.made, nd, json);
    var nd' := nd.(st := nd.st.(eventIndex := index), cursor := Some(row + 1), served := nd.served + [json]);
    SameLink(log.parse, s.made, nd, s.made, nd');
    NodesOk(log, s, n, nd', Event(json, index), s'.tip, s.made);
    DeliveredGrows(log, s.tip, s.delivered, Delivery(n, row, index));
    GoodLater(log, s, s'.tip);
  }

  lemma CursorIn(log: Log, tip: nat, made: set<Checkpoint>, nd: Node)
    requires StateOk(log, tip, made, nd) && nd.cursor.Some?
    ensures log.start <= nd.cursor.value <= tip && nd.st.eventIndex == log.base + nd.cursor.value
  {
  }

  lemma GoodLater(log: Log, s: System, tip': nat)
    requires Inv(log, s) && s.tip <= tip'
    ensures forall c :: c in s.made ==> Good(log, tip', c)
  {
    hide NodeOk, Covered, Numbered;
  }

  lemma SyncKeepsInv(log: Log, s: System, n: NodeId, p: Position)
    requires Inv(log, s) && Enabled(log, s, Sync(n, p))
    ensures Inv(log, Next(log, s, Sync(n, p)))
  {
    hide LinkOk, ReadBack, Record, WriteAt, Broadcast, Covered, Numbered, ItemOk, MessageOf, ActionOk;
    var nd := s.nodes[n];
    assert NodeOk(log, s.tip, s.made, nd);
    var c := Checkpoint(p.file, p.pos, nd.st.eventIndex);
    assert PosOf(c) == p && Good(log, s.tip, c);
    SavedIsRead(log, s.tip, c, nd.st);
    GoodUnpacks(log, s.tip, c);
    var made' := s.made + {c};
    StateOkMonotone(log, s.tip, s.made, s.tip, made', nd);
    var nd' := nd.(st := Synced(nd.st, p));
    SameLink(log.parse, s.made, nd, made', nd');
    NodesOk(log, s, n, nd', Pos(c), s.tip, made');
  }

  lemma KeepaliveKeepsInv(log: Log, s: System, n: NodeId)
    requires Inv(log, s) && Enabled(log, s, Keepalive(n))
    ensures Inv(log, Next(log, s, Keepalive(n)))
  {
    hide LinkOk, StateOk, Good, Covered, Numbered, Broadcast;
    assert NodeOk(log, s.tip, s.made, s.nodes[n]);
    NodesOk(log, s, n, s.nodes[n], Tick, s.tip, s.made);
    assert s.nodes[n := s.nodes[n]] == s.nodes;
  }

  /** The actions that come of items whose checkpoints were made. */
  lemma {:induction false} ActionsMade(parse: Parser, made: set<Checkpoint>, items: seq<Item>)
    requires ItemsOk(parse, items) && forall i :: 0 <= i < |items| ==> ItemMade(made, items[i])
    ensures forall i :: 0 <= i < |Actions(parse, items)| ==> ActionOk(made, Actions(parse, items)[i])
  {
    hide Record, ItemOk;
    if items != [] {
      var n := |items| - 1;
      ActionsMade(parse, made, items[..n]);
      var before := Actions(parse, items[..n]);
      assert ItemMade(made, items[n]) && ItemOk(parse, items[n]);
      forall i | 0 <= i < |Actions(parse, items)|
        ensures ActionOk(made, Actions(parse, items)[i])
      {
        if i < |before| {
          assert Actions(parse, items)[i] == before[i];
        } else {
          assert Actions(parse, items)[i] == ActionsOf(parse, items[n])[i - |before|];
        }
      }
    }
  }

  lemma ReadLink(log: Log, made: set<Checkpoint>, nd: Node, k: nat, extra: nat)
    requires LinkOk(log.parse, made, nd) && nd.buffer.Valid()
    requires k <= READ_SIZE && k <= |nd.wire| && (Primed(nd.buffer) || k >= 4)
    ensures var (buf, out) := DrainTo(log.parse, nd.buffer.Append(nd.wire[..k], extra));
            && LinkOk(log.parse, made, nd.(buffer := buf, wire := nd.wire[k..], todo := out))
            && forall i :: 0 <= i < |out| ==> ActionOk(made, out[i])
  {
    hide DrainTo, Wire, Primed, ActionOk, ItemMade, Actions, ItemOk, Complete, Frames, Messages, GoesOn;
    var items :| Carries(log.parse, made, nd, items);
    var data, rest := nd.wire[..k], nd.wire[k..];
    assert data + rest == nd.wire;
    ReadTakes(log.parse, nd.buffer, data, extra, items, rest);
    var j := Complete(Frames(Messages(items)), nd.buffer.len + |data|);
    ActionsMade(log.parse, made, items[..j]);
    var (buf, out) := DrainTo(log.parse, nd.buffer.Append(data, extra));
    hide Holds;
    assert Carries(log.parse, made, nd.(buffer := buf, wire := rest, todo := out), items[j..]);
  }

  lemma ReadKeepsInv(log: Log, s: System, n: NodeId, k: nat, extra: nat)
    requires Inv(log, s) && Enabled(log, s, Read(n, k, extra))
    ensures Inv(log, Next(log, s, Read(n, k, extra)))
  {
    hide LinkOk, Primed, DrainTo, ReadBack, ActionOk, Good, Covered, Numbered;
    var nd := s.nodes[n];
    assert NodeOk(log, s.tip, s.made, nd);
    ReadLink(log, s.made, nd, k, extra);
    var (buf, out) := DrainTo(log.parse, nd.buffer.Append(nd.wire[..k], extra));
    NodeOnlyOk(log, s, n, nd.(buffer := buf, wire := nd.wire[k..], todo := out));
  }

  /** The node itself, when a checkpoint is installed: it is in order exactly if it does not run, or runs
      with that index. */
  lemma InstallState(log: Log, tip: nat, made: set<Checkpoint>, nd: Node, c: Checkpoint)
    requires StateOk(log, tip, made, nd) && nd.todo != [] && nd.todo[0] == Install(Record(c))
    requires c in made && Good(log, tip, c)
    ensures UnpackPos(Record(c)) == Some(c)
    ensures Acted(nd).st.cache != [] && ReadBack(Acted(nd).st.cache) == c && Acted(nd).st.eventIndex == c.index
    ensures StateOk(log, tip, made, Acted(nd)) <==> (nd.cursor.Some? ==> c.index == nd.st.eventIndex)
  {
    hide ReadBack, Record, WriteAt, UnpackPos, ActionOk;
    GoodUnpacks(log, tip, c);
    SavedIsRead(log, tip, c, nd.st);
    assert Acted(nd).st == Saved(nd.st.(last := PosOf(c), eventIndex := c.index), Record(c));
    assert Acted(nd).st.cache == Saved(nd.st, Record(c)).cache;
    assert forall i :: 0 <= i < |nd.todo[1..]| ==> nd.todo[1..][i] == nd.todo[i + 1];
  }

  lemma ForwardState(log: Log, tip: nat, made: set<Checkpoint>, nd: Node)
    requires StateOk(log, tip, made, nd) && nd.todo != [] && nd.todo[0].Forward?
    ensures StateOk(log, tip, made, Acted(nd))
  {
    hide ReadBack, ActionOk;
    assert forall i :: 0 <= i < |nd.todo[1..]| ==> nd.todo[1..][i] == nd.todo[i + 1];
  }

  lemma DoKeepsInv(log: Log, s: System, n: NodeId)
    requires Inv(log, s) && Enabled(log, s, Do(n))
    ensures Inv(log, Next(log, s, Do(n))) <==> Safe(log, s, Do(n))
  {
    hide StateOk, LinkOk, UnpackPos, Broadcast, Covered, Numbered, Good, ItemOk, ReadBack;
    var nd := s.nodes[n];
    assert NodeOk(log, s.tip, s.made, nd);
    SameLink(log.parse, s.made, nd, s.made, Acted(nd));
    if nd.todo[0].Forward? {
      ForwardState(log, s.tip, s.made, nd);
      NodeOnlyOk(log, s, n, Acted(nd));
    } else {
      var c := FirstInstall(log, s.tip, s.made, nd);
      InstallState(log, s.tip, s.made, nd, c);
      GoodUnpacks(log, s.tip, c);
      NodesOk(log, s, n, Acted(nd), Pos(c), s.tip, s.made);
    }
  }

  lemma FirstInstall(log: Log, tip: nat, made: set<Checkpoint>, nd: Node) returns (c: Checkpoint)
    requires StateOk(log, tip, made, nd) && nd.todo != [] && nd.todo[0].Install?
    ensures c in made && nd.todo[0] == Install(Record(c))
  {
    hide ReadBack, Record;
    assert ActionOk(made, nd.todo[0]);
    c :| c in made && nd.todo[0].record == Record(c);
  }

  lemma RestartKeepsInv(log: Log, s: System, n: NodeId, master: Position)
    requires Inv(log, s) && Enabled(log, s, Restart(n, master))
    ensures Inv(log, Next(log, s, Restart(n, master))) <==> Safe(log, s, Restart(n, master))
  {
    hide LinkOk, ReadBack, Covered, Numbered, ActionOk;
    var nd := s.nodes[n];
    assert NodeOk(log, s.tip, s.made, nd);
    var nd' := nd.(st := Restored(nd.st.cache, master), up := true);
    SameLink(log.parse, s.made, nd, s.made, nd');
    if nd.st.cache != [] {
      assert Good(log, s.tip, ReadBack(nd.st.cache));
    }
    NodeOnlyOk(log, s, n, nd');
  }

  lemma PromoteKeepsInv(log: Log, s: System, n: NodeId)
    requires Inv(log, s) && Enabled(log, s, Promote(n))
    requires s.nodes[n].st.cache != []
    ensures Inv(log, Next(log, s, Promote(n))) <==> Safe(log, s, Promote(n))
  {
    hide LinkOk, ReadBack, Covered, Numbered, ActionOk;
    var nd := s.nodes[n];
    assert NodeOk(log, s.tip, s.made, nd);
    assert Good(log, s.tip, ReadBack(nd.st.cache));
    var nd' := nd.(cursor := Some(log.ord(nd.st.last)));
    SameLink(log.parse, s.made, nd, s.made, nd');
    NodeOnlyOk(log, s, n, nd');
  }

  /** A new connection carries whole frames behind the buffer exactly if the buffer is empty. */
  lemma ConnectLink(parse: Parser, made: set<Checkpoint>, nd: Node)
    requires nd.upstream.Some? && nd.wire == [] && nd.buffer.Valid() && (nd.buffer.len == 0 || Primed(nd.buffer))
    ensures LinkOk(parse, made, nd) <==> nd.buffer.len == 0
  {
    hide Frame, Primed;
    if nd.buffer.len == 0 {
      assert Carries(parse, made, nd, []);
    } else if items :| Carries(parse, made, nd, items) {
      AllOrNothing(Frames(Messages(items)));
    }
  }

  lemma AllOrNothing(parts: seq<bytes>)
    ensures Complete(parts, |Flatten(parts)|) == 0 ==> parts == []
  {
  }

  lemma ConnectKeepsInv(log: Log, s: System, n: NodeId, m: NodeId)
    requires Inv(log, s) && Enabled(log, s, Connect(n, m))
    ensures Inv(log, Next(log, s, Connect(n, m))) <==> Safe(log, s, Connect(n, m))
  {
    hide Primed, Wire, ReadBack, Good, Covered, Numbered, ActionOk, Holds, ItemMade;
    var nd := s.nodes[n];
    assert NodeOk(log, s.tip, s.made, nd);
    var nd' := nd.(upstream := Some(m), wire := []);
    var items :| Carries(log.parse, s.made, nd, items);
    HoldsValid(log.parse, nd.buffer, items);
    ConnectLink(log.parse, s.made, nd');
    hide LinkOk;
    NodeOnlyOk(log, s, n, nd');
  }

  lemma CutKeepsInv(log: Log, s: System, n: NodeId, kept: nat)
    requires Inv(log, s) && Enabled(log, s, Cut(n, kept))
    ensures Inv(log, Next(log, s, Cut(n, kept)))
  {
    hide LinkOk, ReadBack, Good, Covered, Numbered, ActionOk;
    var nd := s.nodes[n];
    assert NodeOk(log, s.tip, s.made, nd);
    var nd' := nd.(upstream := None, wire := nd.wire[..kept]);
    SameLink(log.parse, s.made, nd, s.made, nd');
    NodeOnlyOk(log, s, n, nd');
  }

  lemma DemoteKeepsInv(log: Log, s: System, n: NodeId)
    requires Inv(log, s) && Enabled(log, s, Demote(n))
    ensures Inv(log, Next(log, s, Demote(n)))
  {
    hide LinkOk, ReadBack, Good, Covered, Numbered, ActionOk;
    var nd := s.nodes[n];
    assert NodeOk(log, s.tip, s.made, nd);
    var nd' := nd.(cursor := None);
    SameLink(log.parse, s.made, nd, s.made, nd');
    NodeOnlyOk(log, s, n, nd');
  }

  lemma CrashKeepsInv(log: Log, s: System, n: NodeId)
    requires Inv(log, s) && Enabled(log, s, Crash(n))
    ensures Inv(log, Next(log, s, Crash(n)))
  {
    hide LinkOk, ReadBack, Good, Covered, Numbered, ActionOk;
    var nd := s.nodes[n];
    assert NodeOk(log, s.tip, s.made, nd);
    var nd' := nd.(up := false, cursor := None, upstream := None, wire := [], buffer := EMPTY, todo := []);
    NothingCarried(log.parse, s.made, nd');
    var s' := Next(log, s, Crash(n));
    assert s'.nodes[n] == nd';
    forall k | k in s.nodes && k != n
      ensures NodeOk(log, s.tip, s.made, s'.nodes[k])
    {
      assert NodeOk(log, s.tip, s.made, s.nodes[k]);
      SameLink(log.parse, s.made, s.nodes[k], s.made, s'.nodes[k]);
    }
  }

  lemma NothingCarried(parse: Parser, made: set<Checkpoint>, nd: Node)
    requires nd.buffer == EMPTY && nd.wire == []
    ensures LinkOk(parse, made, nd)
  {
    assert Carries(parse, made, nd, []);
  }

  /** Which steps keep the numbering: exactly the safe ones. (A node that was never given and never
      made a checkpoint has no position to be promoted at.) */
  lemma StepKeepsInvIffSafe(log: Log, s: System, step: Step)
    requires Inv(log, s) && Enabled(log, s, step)
    requires step.Promote? ==> s.nodes[step.n].st.cache != []
    ensures Inv(log, Next(log, s, step)) <==> Safe(log, s, step)
  {
    hide Inv, Next, ReadBack, UnpackPos;
    match step {
      case Row(n, json) => RowKeepsInv(log, s, n, json);
      case Sync(n, p) => SyncKeepsInv(log, s, n, p);
      case Keepalive(n) => KeepaliveKeepsInv(log, s, n);
      case Read(n, k, extra) => ReadKeepsInv(log, s, n, k, extra);
      case Do(n) => DoKeepsInv(log, s, n);
      case Promote(n) => PromoteKeepsInv(log, s, n);
      case Restart(n, master) => RestartKeepsInv(log, s, n, master);
      case Demote(n) => DemoteKeepsInv(log, s, n);
      case Crash(n) => CrashKeepsInv(log, s, n);
      case Connect(n, m) => ConnectKeepsInv(log, s, n, m);
      case Cut(n, kept) => CutKeepsInv(log, s, n, kept);
    }
  }
}
