/** What a follower knows when it installs a checkpoint: the leader's numbering, composed with the
    connection of `AgentItems` that carries its items. */
module CausalOrder {
  import opened Bytes
  import opened GoSlice
  import opened Streams
  import opened PosRecord
  import opened AgentNode
  import opened AgentLink
  import opened AgentItems
  import opened BinlogHandler

  // ---------- the sending node ----------

  /** What has arrived is a prefix of the frames the node has accepted: what is written is, whether or not
      the node is still online. */
  lemma WrittenIsPrefix(node: ClientNode, items: seq<Item>, chunks: seq<Chunk>)
    requires node.Sends() && node.accepted == Messages(items)
    requires Arrived(chunks) <= node.written
    ensures Arrived(chunks) <= Flatten(Frames(Messages(items)))
  {
  }

  /** What happens on the leader while the connection lasts. A node passes on the checkpoints it installs,
      too. */
  datatype LeaderOp = RowOp(json: bytes) | SyncOp(p: Position) | InstallOp(c: Checkpoint) | TickOp

  /** What these do to the binlog handler: `OnRow` for one row, `OnPosSynced`, `SaveBinlogPosition`. */
  function StateAfter(op: LeaderOp, st: State): (st': State)
    ensures st'.exiting == st.exiting
  {
    match op
    case RowOp(_) => st.(eventIndex := Wrap64(st.eventIndex + 1))
    case SyncOp(p) => Synced(st, p)
    case InstallOp(c) => Installed(st, Record(c))
    case TickOp => st
  }

  /** And what they hand to the agent to broadcast. */
  function ItemOf(op: LeaderOp, st: State): Item {
    match op
    case RowOp(json) => Event(json, Wrap64(st.eventIndex + 1))
    case SyncOp(p) => Pos(Checkpoint(p.file, p.pos, st.eventIndex))
    case InstallOp(c) => Pos(c)
    case TickOp => Tick
  }

  function Items(ops: seq<LeaderOp>, st: State): (items: seq<Item>)
    requires !st.exiting
    ensures |items| == |ops|
    decreases |ops|
  {
    if ops == [] then [] else [ItemOf(ops[0], st)] + Items(ops[1..], StateAfter(ops[0], st))
  }

  /** The node after the first `k` operations. */
  function StateAt(ops: seq<LeaderOp>, k: nat, st: State): (st': State)
    requires k <= |ops|
    ensures st'.exiting == st.exiting
    decreases k
  {
    if k == 0 then st else StateAt(ops[1..], k - 1, StateAfter(ops[0], st))
  }

  lemma {:induction false} ItemAt(ops: seq<LeaderOp>, j: nat, st: State)
    requires !st.exiting && j < |ops|
    ensures Items(ops, st)[j] == ItemOf(ops[j], StateAt(ops, j, st))
    ensures StateAt(ops, j + 1, st) == StateAfter(ops[j], StateAt(ops, j, st))
    decreases j
  {
    hide StateAfter, ItemOf;
    if j > 0 {
      ItemAt(ops[1..], j - 1, StateAfter(ops[0], st));
    }
  }

  /** The checkpoint is where the node now is: its last position, and the number it has come to. */
  predicate IsOwn(c: Checkpoint, st: State) {
    c.file == st.last.file && c.pos % TWO_32 == st.last.pos && c.index == st.eventIndex
  }

  /** A checkpoint on the connection is the sender's own right after the operation that put it there: the
      synced position with the index the rows have reached, or the checkpoint just installed. */
  lemma CheckpointIsOwn(ops: seq<LeaderOp>, st: State, j: nat)
    requires !st.exiting && j < |ops| && Items(ops, st)[j].Pos?
    requires ops[j].InstallOp? ==> |ops[j].c.file| + 16 < 0x1_0000
    ensures IsOwn(Items(ops, st)[j].c, StateAt(ops, j + 1, st))
    ensures ops[j].SyncOp? ==>
              && StateAt(ops, j + 1, st).last == ops[j].p
              && StateAt(ops, j + 1, st).eventIndex == StateAt(ops, j, st).eventIndex
    ensures ops[j].InstallOp? ==> Items(ops, st)[j].c == ops[j].c
    ensures ops[j].SyncOp? || ops[j].InstallOp?
  {
    hide Record, UnpackPos;
    ItemAt(ops, j, st);
    if ops[j].InstallOp? {
      RoundTrip(ops[j].c, []);
      assert Record(ops[j].c) + [] == Record(ops[j].c);
    }
  }

  /** The handler's methods do these operations, and hand the agent these checkpoints. */
  method Perform<Raw, Value>(b: Binlog<Raw, Value>, op: LeaderOp)
    requires b.status & EXIT == 0
    requires op.SyncOp? || (op.InstallOp? && |op.c.file| + 16 < 0x1_0000)
    modifies b
    ensures b.Current() == StateAfter(op, old(b.Current()))
    ensures ItemOf(op, old(b.Current())).Pos?
    ensures b.posChanges == old(b.posChanges) + [Record(ItemOf(op, old(b.Current())).c)]
  {
    match op {
      case SyncOp(p) => b.OnPosSynced(p);
      case InstallOp(c) =>
        var data := PackPos(c.file, c.pos, c.index);
        var panicked := b.SaveBinlogPosition(data[..]);
    }
  }

  /** And installed by a follower it takes that one to where the sender was. */
  lemma FollowerIsThere(c: Checkpoint, st: State, follower: State)
    requires IsOwn(c, st) && |c.file| + 16 < 0x1_0000
    ensures Installed(follower, Record(c)).last == st.last
    ensures Installed(follower, Record(c)).eventIndex == st.eventIndex
  {
    hide Record, UnpackPos;
    RoundTrip(c, []);
    assert Record(c) + [] == Record(c);
  }

  function RowOps(jsons: seq<bytes>): (ops: seq<LeaderOp>)
    ensures |ops| == |jsons|
  {
    seq(|jsons|, i requires 0 <= i < |jsons| => RowOp(jsons[i]))
  }

  lemma {:induction false} RowsNumberOn(jsons: seq<bytes>, st: State, before: int)
    requires !st.exiting && st.eventIndex == Wrap64(before)
    ensures forall i :: 0 <= i < |jsons| ==> Items(RowOps(jsons), st)[i] == Event(jsons[i], Wrap64(before + i + 1))
    decreases |jsons|
  {
    hide Wrap64;
    if jsons != [] {
      WrapNext(before);
      var st' := StateAfter(RowOp(jsons[0]), st);
      assert RowOps(jsons)[1..] == RowOps(jsons[1..]);
      RowsNumberOn(jsons[1..], st', before + 1);
      assert Items(RowOps(jsons), st) == [Event(jsons[0], Wrap64(before + 1))] + Items(RowOps(jsons[1..]), st');
    }
  }

  /** The rows of an event are numbered as `OnRow` numbers its notifications. */
  lemma RowsAsOnRow<Raw, Value>(e: RowsEvent<Raw>, time: int, decode: (Raw, Column) -> Value,
                                jsons: seq<bytes>, st: State, i: nat)
    requires |jsons| == Notifications(e) && !st.exiting && i < |jsons|
    ensures Items(RowOps(jsons), st)[i]
         == Event(jsons[i], NotificationsOf(e, Notifications(e), time, st.eventIndex, decode)[i].eventIndex)
  {
    hide DecodeRow, Items;
    RowsNumberOn(jsons, st, st.eventIndex);
  }

  function RowsIn(ops: seq<LeaderOp>): nat {
    if ops == [] then 0 else (if ops[0].RowOp? then 1 else 0) + RowsIn(ops[1..])
  }

  /** While no checkpoint is installed, the numbers on the connection count the rows, whatever is synced and
      sent between them: a row has the number behind that of the row before, and a checkpoint that of the last
      row. */
  lemma {:induction false} IndicesCountRows(ops: seq<LeaderOp>, st: State, j: nat, before: int)
    requires !st.exiting && j < |ops| && (forall i :: 0 <= i <= j ==> !ops[i].InstallOp?)
    requires st.eventIndex == Wrap64(before)
    ensures var item := Items(ops, st)[j];
            var rows := RowsIn(ops[..j]);
            && (ops[j].RowOp? ==> item == Event(ops[j].json, Wrap64(before + rows + 1)))
            && (ops[j].SyncOp? ==> item == Pos(Checkpoint(ops[j].p.file, ops[j].p.pos, Wrap64(before + rows))))
            && (ops[j].TickOp? ==> item == Tick)
    decreases j
  {
    hide Wrap64, Record, UnpackPos;
    if j == 0 {
      WrapNext(before);
      assert ops[..0] == [];
    } else {
      WrapNext(before);
      var st' := StateAfter(ops[0], st);
      IndicesCountRows(ops[1..], st', j - 1, if ops[0].RowOp? then before + 1 else before);
      assert ops[..j][1..] == ops[1..][..j - 1] && ops[..j][0] == ops[0];
    }
  }

  /** Below every index. */
  const NONE := -TWO_63 - 1

  function Max(a: int, b: int): int {
    if a < b then b else a
  }

  /** A test the leader could make before each operation, if it kept the highest index of an event and of a
      checkpoint it has put on the connection: a row's number must exceed every checkpoint's, and a
      checkpoint must cover every event, be it made or installed and passed on. */
  predicate InStep(ops: seq<LeaderOp>, st: State, hiE: int, hiP: int)
    decreases |ops|
  {
    ops == [] ||
    (var item := ItemOf(ops[0], st);
     match item
     case Event(_, index) => hiP < index && InStep(ops[1..], StateAfter(ops[0], st), Max(hiE, index), hiP)
     case Pos(c) => hiE <= c.index && InStep(ops[1..], StateAfter(ops[0], st), hiE, Max(hiP, c.index))
     case Tick => InStep(ops[1..], StateAfter(ops[0], st), hiE, hiP))
  }

  /** A checkpoint carries the number of the last event before it: an event precedes it exactly if its
      number is not higher. */
  predicate Ordered(items: seq<Item>) {
    forall i, j :: 0 <= i < |items| && 0 <= j < |items| && items[i].Event? && items[j].Pos? ==>
      (i < j <==> items[i].index <= items[j].c.index)
  }

  /** And the items go on behind others with these highest indices. */
  predicate Above(items: seq<Item>, hiE: int, hiP: int) {
    && (forall i :: 0 <= i < |items| && items[i].Event? ==> hiP < items[i].index)
    && (forall j :: 0 <= j < |items| && items[j].Pos? ==> hiE <= items[j].c.index)
  }

  predicate FirstFits(item: Item, items: seq<Item>, hiE: int, hiP: int) {
    match item
    case Event(_, index) => hiP < index && Ordered(items) && Above(items, Max(hiE, index), hiP)
    case Pos(c) => hiE <= c.index && Ordered(items) && Above(items, hiE, Max(hiP, c.index))
    case Tick => Ordered(items) && Above(items, hiE, hiP)
  }

  lemma FirstOrdered(item: Item, items: seq<Item>, hiE: int, hiP: int)
    requires FirstFits(item, items, hiE, hiP)
    ensures Ordered([item] + items) && Above([item] + items, hiE, hiP)
  {
    var all := [item] + items;
    assert forall i :: 0 < i < |all| ==> all[i] == items[i - 1];
  }

  lemma OrderedFirst(item: Item, items: seq<Item>, hiE: int, hiP: int)
    requires Ordered([item] + items) && Above([item] + items, hiE, hiP)
    ensures FirstFits(item, items, hiE, hiP)
  {
    var all := [item] + items;
    assert all[0] == item && forall i :: 0 <= i < |items| ==> items[i] == all[i + 1];
  }

  /** The order on a connection, for every sequence of operations: it holds exactly if each was in step. */
  lemma {:induction false} OrderIffInStep(ops: seq<LeaderOp>, st: State, hiE: int, hiP: int)
    requires !st.exiting
    ensures InStep(ops, st, hiE, hiP) <==> Ordered(Items(ops, st)) && Above(Items(ops, st), hiE, hiP)
    decreases |ops|
  {
    hide StateAfter, ItemOf, Ordered, Above;
    if ops == [] {
      OrderedNone(hiE, hiP);
    } else {
      var item, st' := ItemOf(ops[0], st), StateAfter(ops[0], st);
      var items := Items(ops[1..], st');
      if Ordered([item] + items) && Above([item] + items, hiE, hiP) {
        OrderedFirst(item, items, hiE, hiP);
      } else if FirstFits(item, items, hiE, hiP) {
        FirstOrdered(item, items, hiE, hiP);
      }
      match item {
        case Event(_, index) => OrderIffInStep(ops[1..], st', Max(hiE, index), hiP);
        case Pos(c) => OrderIffInStep(ops[1..], st', hiE, Max(hiP, c.index));
        case Tick => OrderIffInStep(ops[1..], st', hiE, hiP);
      }
    }
  }

  lemma OrderedNone(hiE: int, hiP: int)
    ensures Ordered([]) && Above([], hiE, hiP)
  {
  }

  lemma {:induction false} AboveNone(ops: seq<LeaderOp>, st: State)
    requires !st.exiting
    ensures Above(Items(ops, st), NONE, NONE)
    decreases |ops|
  {
    hide StateAfter;
    if ops != [] {
      var st' := StateAfter(ops[0], st);
      AboveNone(ops[1..], st');
      assert forall i :: 0 < i < |ops| ==> Items(ops, st)[i] == Items(ops[1..], st')[i - 1];
    }
  }

  /** Which leaders keep the order on a connection: exactly those that stay in step. */
  lemma LeaderOrder(ops: seq<LeaderOp>, st: State)
    requires !st.exiting
    ensures Ordered(Items(ops, st)) <==> InStep(ops, st, NONE, NONE)
  {
    hide Ordered, Items, InStep, Above;
    OrderIffInStep(ops, st, NONE, NONE);
    AboveNone(ops, st);
  }

  lemma IndexAfter(op: LeaderOp, st: State)
    ensures op.SyncOp? || op.TickOp? ==> StateAfter(op, st).eventIndex == st.eventIndex
    ensures op.InstallOp? && |op.c.file| + 16 < 0x1_0000 ==> StateAfter(op, st).eventIndex == op.c.index
  {
    hide UnpackPos, Record;
    if op.InstallOp? {
      RoundTrip(op.c, []);
      assert Record(op.c) + [] == Record(op.c);
    }
  }

  /** One that installs no checkpoint older than its own index does, as long as the int64 is not used
      up. */
  lemma {:induction false} ForwardsInStep(ops: seq<LeaderOp>, st: State, hiE: int, hiP: int)
    requires !st.exiting && Forwards(ops, st) && hiE <= st.eventIndex && hiP <= st.eventIndex
    ensures InStep(ops, st, hiE, hiP)
    decreases |ops|
  {
    hide StateAfter;
    if ops != [] {
      IndexAfter(ops[0], st);
      var st' := StateAfter(ops[0], st);
      match ops[0] {
        case RowOp(_) =>
          RowIndex(ops[0], st);
          ForwardsInStep(ops[1..], st', Max(hiE, st.eventIndex + 1), hiP);
        case SyncOp(_) => ForwardsInStep(ops[1..], st', hiE, Max(hiP, st.eventIndex));
        case InstallOp(c) => ForwardsInStep(ops[1..], st', hiE, Max(hiP, c.index));
        case TickOp => ForwardsInStep(ops[1..], st', hiE, hiP);
      }
    }
  }

  lemma RowIndex(op: LeaderOp, st: State)
    requires op.RowOp? && st.eventIndex < TWO_63 - 1
    ensures StateAfter(op, st).eventIndex == Wrap64(st.eventIndex + 1) == st.eventIndex + 1
  {
  }

  predicate Forwards(ops: seq<LeaderOp>, st: State)
    decreases |ops|
  {
    ops != [] ==>
      && (ops[0].RowOp? ==> st.eventIndex < TWO_63 - 1)
      && (ops[0].InstallOp? ==> |ops[0].c.file| + 16 < 0x1_0000 && st.eventIndex <= ops[0].c.index)
      && Forwards(ops[1..], StateAfter(ops[0], st))
  }

  /** An instance: after a checkpoint, one that is installed and passed on, and a row, the order is lost
      exactly if the installed one was older. */
  lemma StepBackBreaksOrder(st: State, p: Position, c: Checkpoint, json: bytes)
    requires !st.exiting && |c.file| + 16 < 0x1_0000 && c.index < TWO_63 - 1
    ensures Ordered(Items([SyncOp(p), InstallOp(c), RowOp(json)], st)) <==> st.eventIndex <= c.index
  {
    hide StateAfter;
    var ops := [SyncOp(p), InstallOp(c), RowOp(json)];
    var st1 := StateAfter(ops[0], st);
    var st2 := StateAfter(ops[1], st1);
    IndexAfter(ops[0], st);
    IndexAfter(ops[1], st1);
    RowIndex(ops[2], st2);
    assert ops[1..] == [InstallOp(c), RowOp(json)] && ops[1..][1..] == [RowOp(json)];
    assert Items(ops, st)[1] == Items(ops[1..], st1)[0] == Pos(c);
    assert Items(ops, st)[2] == Items(ops[1..], st1)[1] == Items(ops[1..][1..], st2)[0] == ItemOf(RowOp(json), st2);
    var items := Items(ops, st);
    assert items[0] == Pos(Checkpoint(p.file, p.pos, st.eventIndex)) && items[2] == Event(json, c.index + 1);
  }

  // ---------- the follower's side ----------

  /** Every action comes from an item, and everything before that item has been acted on before. */
  lemma {:induction false} ActionHasItem(parse: Parser, items: seq<Item>, t: nat) returns (j: nat)
    requires ItemsOk(parse, items) && t < |Actions(parse, items)|
    ensures j < |items| && !items[j].Tick?
    ensures Actions(parse, items)[t] == ActionsOf(parse, items[j])[0]
    ensures Actions(parse, items[..j]) == Actions(parse, items)[..t]
    decreases |items|
  {
    hide ItemOk, ActionsOf;
    var n := |items| - 1;
    var before := Actions(parse, items[..n]);
    OneAction(parse, items[n]);
    assert Actions(parse, items) == before + ActionsOf(parse, items[n]);
    if t < |before| {
      j := ActionHasItem(parse, items[..n], t);
      assert items[..n][..j] == items[..j];
    } else {
      j := n;
      assert Actions(parse, items)[..t] == before;
    }
  }

  /** What a follower has done before a checkpoint it installs. */
  lemma DoneBefore(parse: Parser, s: Slice, chunks: seq<Chunk>, items: seq<Item>, t: nat) returns (j: nat)
    requires s.Valid() && ItemsOk(parse, items) && Fifo(parse, s, chunks, items)
    requires var done := FeedClient(parse, s, chunks).1;
             t < |done| && done[t].Install?
    ensures j < |items| && items[j].Pos?
    ensures FeedClient(parse, s, chunks).1[t] == Install(Record(items[j].c))
    ensures FeedClient(parse, s, chunks).1[..t] == Actions(parse, items[..j])
  {
    hide FeedClient, Frames, Flatten, Record, Complete, ItemOk, Actions, Messages, Arrived;
    var k := Complete(Frames(Messages(items)), |Arrived(chunks)|);
    j := ActionHasItem(parse, items[..k], t);
    assert items[..k][..j] == items[..j];
    assert ItemOk(parse, items[j]);
  }

  /** Causal order: when a follower installs a checkpoint, it is one the leader put on this connection, and
      the follower has by then done exactly what was put on it before. The checkpoint takes the follower to
      where the leader was right behind the operation that made it. And while the leader stays in step, the
      events done before are exactly the ones with a number up to the checkpoint's. */
  lemma CausalOrder(parse: Parser, node: ClientNode, s: Slice, chunks: seq<Chunk>, ops: seq<LeaderOp>, st: State,
                    t: nat, follower: State)
    requires !st.exiting && ItemsOk(parse, Items(ops, st))
    requires node.Sends() && node.accepted == Messages(Items(ops, st)) && Arrived(chunks) <= node.written
    requires AtBoundary(s) && ReadsFit(chunks) && (Primed(s) || FirstReadHasHeader(chunks))
    requires var done := FeedClient(parse, s, chunks).1;
             t < |done| && done[t].Install?
    ensures var items := Items(ops, st);
            var done := FeedClient(parse, s, chunks).1;
            exists j :: 0 <= j < |items| && items[j].Pos?
              && done[t] == Install(Record(items[j].c))
              && done[..t] == Actions(parse, items[..j])
              && (|items[j].c.file| + 16 < 0x1_0000 ==>
                    var own, follower' := StateAt(ops, j + 1, st), Installed(follower, done[t].record);
                    follower'.last == own.last && follower'.eventIndex == own.eventIndex)
              && (InStep(ops, st, NONE, NONE) ==>
                    forall i :: 0 <= i < |items| && items[i].Event? ==> (i < j <==> items[i].index <= items[j].c.index))
  {
    assert s.Valid();
    hide *;
    var items := Items(ops, st);
    WrittenIsPrefix(node, items, chunks);
    LinkIsFifo(parse, s, chunks, items);
    var j := DoneBefore(parse, s, chunks, items, t);
    if |items[j].c.file| + 16 < 0x1_0000 {
      TakesFollower(ops, st, j, follower);
    }
    if InStep(ops, st, NONE, NONE) {
      LeaderOrder(ops, st);
      OrderedAt(items, j);
    }
  }

  lemma TakesFollower(ops: seq<LeaderOp>, st: State, j: nat, follower: State)
    requires !st.exiting && j < |ops| && Items(ops, st)[j].Pos? && |Items(ops, st)[j].c.file| + 16 < 0x1_0000
    ensures var own, follower' := StateAt(ops, j + 1, st), Installed(follower, Record(Items(ops, st)[j].c));
            follower'.last == own.last && follower'.eventIndex == own.eventIndex
  {
    hide Items, StateAt, StateAfter, Installed, Record;
    ItemAt(ops, j, st);
    CheckpointIsOwn(ops, st, j);
    FollowerIsThere(Items(ops, st)[j].c, StateAt(ops, j + 1, st), follower);
  }

  lemma OrderedAt(items: seq<Item>, j: nat)
    requires Ordered(items) && j < |items| && items[j].Pos?
    ensures forall i :: 0 <= i < |items| && items[i].Event? ==> (i < j <==> items[i].index <= items[j].c.index)
  {
  }

  function Checkpoints(items: seq<Item>): seq<bytes> {
    if items == [] then []
    else
      var n := |items| - 1;
      Checkpoints(items[..n]) + if items[n].Pos? then [Record(items[n].c)] else []
  }

  function Installs(actions: seq<Action>): seq<bytes> {
    if actions == [] then []
    else
      var n := |actions| - 1;
      Installs(actions[..n]) + if actions[n].Install? then [actions[n].record] else []
  }

  lemma InstallsLast(actions: seq<Action>, a: Action)
    ensures Installs(actions + [a]) == Installs(actions) + if a.Install? then [a.record] else []
  {
    assert (actions + [a])[..|actions|] == actions;
  }

  lemma {:induction false} InstallsOfActions(parse: Parser, items: seq<Item>)
    requires ItemsOk(parse, items)
    ensures Installs(Actions(parse, items)) == Checkpoints(items)
  {
    hide ItemOk, Record, Installs;
    if items == [] {
      InstallsNone();
    } else {
      var n := |items| - 1;
      InstallsOfActions(parse, items[..n]);
      var before := Actions(parse, items[..n]);
      if items[n].Tick? {
        assert before + [] == before;
      } else {
        InstallsLast(before, ActionsOf(parse, items[n])[0]);
      }
    }
  }

  lemma InstallsNone()
    ensures Installs([]) == []
  {
  }

  lemma {:induction false} CheckpointsOfPrefix(items: seq<Item>, k: nat)
    requires k <= |items|
    ensures Checkpoints(items[..k]) <= Checkpoints(items)
  {
    if k < |items| {
      var n := |items| - 1;
      CheckpointsOfPrefix(items[..n], k);
      assert items[..n][..k] == items[..k];
    } else {
      assert items[..k] == items;
    }
  }

  /** The checkpoints a follower has installed are a prefix of those broadcast on the connection. */
  lemma InstalledIsPrefix(parse: Parser, node: ClientNode, s: Slice, chunks: seq<Chunk>, items: seq<Item>)
    requires ItemsOk(parse, items)
    requires node.Sends() && node.accepted == Messages(items) && Arrived(chunks) <= node.written
    requires AtBoundary(s) && ReadsFit(chunks) && (Primed(s) || FirstReadHasHeader(chunks))
    ensures Installs(FeedClient(parse, s, chunks).1) <= Checkpoints(items)
  {
    WrittenIsPrefix(node, items, chunks);
    hide FeedClient, Frames, Flatten, Primed, ItemOk, Actions;
    LinkIsFifo(parse, s, chunks, items);
    var k := Complete(Frames(Messages(items)), |Arrived(chunks)|);
    InstallsOfActions(parse, items[..k]);
    CheckpointsOfPrefix(items, k);
  }
}
