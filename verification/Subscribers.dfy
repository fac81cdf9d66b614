/** What the subscribers of a follower get to see: the events its leader sends it, and after a promotion its
    own. From the beginning of a connection on, no row is missing. (agent/agent.go, binlog/binlog_handler.go) */
module Subscribers {
  import opened Wrappers
  import opened Bytes
  import opened GoSlice
  import opened Streams
  import opened PosRecord
  import opened CacheFile
  import opened BinlogHandler
  import opened ServiceUtil
  import opened AgentCodec
  import opened AgentNode
  import opened AgentLink
  import opened AgentItems
  import opened Cluster
  import opened Failover

  /** The text tells of its row under the row's own number. */
  predicate NumberedText(log: Log, json: bytes) {
    log.indexOf(json) == log.base + log.rowOf(json) + 1
  }

  /** Every row from `since` up to `f` has been sent, under its own number. */
  predicate ServedFrom(log: Log, served: seq<bytes>, since: nat, f: nat) {
    forall row: nat :: since <= row < f ==> HasServed(log, served, row)
  }

  predicate HasServed(log: Log, served: seq<bytes>, row: nat) {
    exists i :: 0 <= i < |served| && log.rowOf(served[i]) == row && NumberedText(log, served[i])
  }

  function Max(a: nat, b: nat): nat {
    if a < b then b else a
  }

  /** How far the rows reach when these actions are done, if they reach up to `f` before. */
  function Reach(log: Log, actions: seq<Action>, f: nat): (r: nat)
    ensures f <= r
  {
    if actions == [] then f
    else if actions[0].Forward? then Reach(log, actions[1..], Max(f, log.rowOf(actions[0].data) + 1))
    else Reach(log, actions[1..], f)
  }

  /** The action leaves no gap: an event tells of a row reached, or of the next; a checkpoint lies within
      what is reached. */
  predicate Follows(log: Log, a: Action, f: nat) {
    match a
    case Forward(_, data) => log.rowOf(data) <= f && NumberedText(log, data)
    case Install(r) => UnpackPos(r).Some? && log.ord(PosOf(UnpackPos(r).value)) <= f
  }

  predicate InOrder(log: Log, actions: seq<Action>, f: nat) {
    actions == [] ||
    (Follows(log, actions[0], f) && InOrder(log, actions[1..], Reach(log, actions[..1], f)))
  }

  lemma ReachOne(log: Log, a: Action, f: nat)
    ensures Reach(log, [a], f) == if a.Forward? then Max(f, log.rowOf(a.data) + 1) else f
  {
    assert [a][1..] == [];
  }

  lemma ReachFirst(log: Log, actions: seq<Action>, f: nat)
    requires actions != []
    ensures Reach(log, actions, f) == Reach(log, actions[1..], Reach(log, actions[..1], f))
  {
    assert actions[..1] == [actions[0]];
    ReachOne(log, actions[0], f);
  }

  lemma {:induction false} ReachLater(log: Log, actions: seq<Action>, f: nat, f': nat)
    requires f <= f'
    ensures Reach(log, actions, f) <= Reach(log, actions, f')
    decreases |actions|
  {
    if actions != [] {
      if actions[0].Forward? {
        ReachLater(log, actions[1..], Max(f, log.rowOf(actions[0].data) + 1), Max(f', log.rowOf(actions[0].data) + 1));
      } else {
        ReachLater(log, actions[1..], f, f');
      }
    }
  }

  lemma {:induction false} InOrderLater(log: Log, actions: seq<Action>, f: nat, f': nat)
    requires f <= f' && InOrder(log, actions, f)
    ensures InOrder(log, actions, f')
    decreases |actions|
  {
    hide Reach, UnpackPos;
    if actions != [] {
      ReachLater(log, actions[..1], f, f');
      InOrderLater(log, actions[1..], Reach(log, actions[..1], f), Reach(log, actions[..1], f'));
    }
  }

  lemma {:induction false} InOrderMore(log: Log, actions: seq<Action>, a: Action, f: nat)
    requires InOrder(log, actions, f) && Follows(log, a, Reach(log, actions, f))
    ensures InOrder(log, actions + [a], f)
    ensures Reach(log, actions + [a], f) == Reach(log, [a], Reach(log, actions, f))
    decreases |actions|
  {
    hide Reach, Follows;
    if actions == [] {
      assert actions + [a] == [a] && [a][1..] == [];
      ReachNothing(log, f);
      assert InOrder(log, [a][1..], Reach(log, [a][..1], f));
    } else {
      var g := Reach(log, actions[..1], f);
      ReachFirst(log, actions, f);
      ReachFirst(log, actions + [a], f);
      assert (actions + [a])[1..] == actions[1..] + [a] && (actions + [a])[..1] == actions[..1];
      InOrderMore(log, actions[1..], a, g);
    }
  }

  lemma ReachNothing(log: Log, f: nat)
    ensures Reach(log, [], f) == f
  {
  }

  lemma {:induction false} InOrderPrefix(log: Log, a: seq<Action>, b: seq<Action>, f: nat)
    requires InOrder(log, a + b, f)
    ensures InOrder(log, a, f)
    decreases |a|
  {
    hide Reach, Follows;
    if a != [] {
      assert (a + b)[0] == a[0] && (a + b)[..1] == a[..1] && (a + b)[1..] == a[1..] + b;
      InOrderPrefix(log, a[1..], b, Reach(log, a[..1], f));
    }
  }

  // ---------- what is watched, and what holds of it ----------

  /** What is watched of a follower in a run: whether it holds a checkpoint no further than its subscribers
      are; the row up to which these have been sent everything; and the row up to which the sender has come
      on the present connection. */
  datatype Feed = Feed(got: bool, far: nat, sent: nat)

  function Watched(log: Log, s: System, step: Step, n: NodeId, v: Feed): Feed
    requires n in s.nodes && Enabled(log, s, step)
  {
    match step
    case Row(x, _) =>
      if x == n then v.(far := Max(v.far, s.nodes[n].cursor.value + 1))
      else if s.nodes[n].upstream == Some(x) then v.(sent := Max(v.sent, s.nodes[x].cursor.value + 1))
      else v
    case Do(x) => if x == n then AfterAction(log, s.nodes[n], v) else v
    case Connect(x, m) =>
      if x == n then v.(sent := ComeTo(log, s.nodes[m])) else v
    case _ => v
  }

  function AfterAction(log: Log, nd: Node, v: Feed): Feed
    requires nd.todo != []
  {
    match nd.todo[0]
    case Forward(_, data) => v.(far := Max(v.far, log.rowOf(data) + 1))
    case Install(_) => v.(got := true)
  }

  /** How far a node has come: the next row it delivers, or would deliver once promoted. */
  function ComeTo(log: Log, nd: Node): nat {
    if nd.cursor.Some? then nd.cursor.value else if nd.st.cache != [] then log.ord(nd.st.last) else 0
  }

  /** The steps that leave no gap, by tests that can be made before them: the follower is promoted at a
      position its subscribers have come to; it connects to a node that has not come further than they have;
      and its upstream passes on a checkpoint of another node only if it lies within what it has sent on
      the connection itself. */
  predicate Direct(log: Log, s: System, step: Step, n: NodeId, v: Feed)
    requires n in s.nodes && Enabled(log, s, step)
  {
    match step
    case Promote(x) => x == n ==> log.ord(s.nodes[n].st.last) <= v.far
    case Connect(x, m) => x == n ==> m != n && ComeTo(log, s.nodes[m]) <= v.far
    case Do(x) =>
      x != n && s.nodes[n].upstream == Some(x) && s.nodes[x].todo[0].Install? &&
      UnpackPos(s.nodes[x].todo[0].record).Some? ==>
        log.ord(PosOf(UnpackPos(s.nodes[x].todo[0].record).value)) <= v.sent
    case _ => true
  }

  /** What the client of a node has still to do: what it has decoded, and what is coming. */
  function Pending(log: Log, nd: Node, items: seq<Item>): seq<Action> {
    if ItemsOk(log.parse, items) then nd.todo + Actions(log.parse, items) else nd.todo
  }

  /** The leader of a connection runs, or would resume, within what its messages reach. */
  predicate Leads(log: Log, md: Node, reach: nat) {
    && md.up
    && (md.cursor.Some? ==> md.cursor.value <= reach)
    && (md.st.cache != [] ==> log.ord(md.st.last) <= reach)
  }

  /** How many rows lie before the position a node would resume at: in memory, or in the file of a node that
      is down. */
  function Kept(log: Log, nd: Node): nat {
    if nd.up then log.ord(nd.st.last) else log.ord(PosOf(ReadBack(nd.st.cache)))
  }

  /** The subscribers of the node have been sent every row from `since` on; it leads, or holds a checkpoint,
      no further on than they are; and what is coming on its connection leaves no gap. */
  predicate Fed(log: Log, made: set<Checkpoint>, nd: Node, since: nat, v: Feed, items: seq<Item>) {
    && since <= v.far && ServedFrom(log, nd.served, since, v.far)
    && (v.got ==> nd.st.cache != [] && Kept(log, nd) <= v.far)
    && (nd.cursor.Some? ==> nd.cursor.value <= v.far)
    && Carries(log.parse, made, nd, items)
    && InOrder(log, Pending(log, nd, items), v.far)
  }

  /** The sender has not come further than its messages reach. */
  predicate Follower(log: Log, s: System, n: NodeId, v: Feed, reach: nat)
    requires n in s.nodes
  {
    s.nodes[n].upstream.Some? ==>
      var x := s.nodes[n].upstream.value;
      x in s.nodes && x != n && v.sent <= reach && Leads(log, s.nodes[x], reach)
  }

  ghost predicate IsFed(log: Log, s: System, n: NodeId, since: nat, v: Feed) {
    && n in s.nodes
    && exists items ::
         && Fed(log, s.made, s.nodes[n], since, v, items)
         && Follower(log, s, n, v, Reach(log, Pending(log, s.nodes[n], items), v.far))
  }

  // ---------- what the steps do to the two nodes ----------

  /** A step of another node than `n`, and not of its upstream, leaves it alone. */
  lemma Untouched(log: Log, s: System, step: Step, n: NodeId)
    requires Enabled(log, s, step) && n in s.nodes && step.n != n && s.nodes[n].upstream != Some(step.n)
    ensures n in Next(log, s, step).nodes && Next(log, s, step).nodes[n] == s.nodes[n]
  {
    hide UnpackPos, DrainTo, Installed, Synced, Restored, ItemOk, MessageOf, Frame, Acted;
  }

  lemma MadeStays(log: Log, s: System, step: Step)
    requires Enabled(log, s, step)
    ensures s.made <= Next(log, s, step).made
  {
    hide UnpackPos, DrainTo, Installed, Synced, Restored, ItemOk, MessageOf, Frame, Acted;
  }

  /** The node after a step of its own. */
  function NodeAfter(log: Log, nd: Node, step: Step): Node
    requires step.Row? ==> nd.cursor.Some?
    requires step.Read? ==> nd.buffer.Valid() && step.k <= |nd.wire|
    requires step.Do? ==> nd.todo != []
    requires step.Cut? ==> step.kept <= |nd.wire|
  {
    match step
    case Row(_, json) =>
      nd.(st := nd.st.(eventIndex := Wrap64(nd.st.eventIndex + 1)), cursor := Some(nd.cursor.value + 1),
          served := nd.served + [json])
    case Sync(_, p) => nd.(st := Synced(nd.st, p))
    case Read(_, k, extra) =>
      var (buf, out) := DrainTo(log.parse, nd.buffer.Append(nd.wire[..k], extra));
      nd.(buffer := buf, wire := nd.wire[k..], todo := out)
    case Do(_) => Acted(nd)
    case Promote(_) => nd.(cursor := Some(log.ord(nd.st.last)))
    case Demote(_) => nd.(cursor := None)
    case Cut(_, kept) => nd.(upstream := None, wire := nd.wire[..kept])
    case _ => nd
  }

  lemma OwnNode(log: Log, s: System, step: Step)
    requires Enabled(log, s, step) && s.nodes[step.n].upstream != Some(step.n)
    requires !step.Crash? && !step.Restart? && !step.Connect?
    ensures step.n in Next(log, s, step).nodes
    ensures Next(log, s, step).nodes[step.n] == NodeAfter(log, s.nodes[step.n], step)
  {
    hide UnpackPos, DrainTo, Installed, Synced, Restored, ItemOk, MessageOf, Frame;
  }

  /** A node connected to the one that broadcasts. */
  lemma Fanned(log: Log, s: System, step: Step, n: NodeId)
    requires Enabled(log, s, step) && n in s.nodes && step.n != n && s.nodes[n].upstream == Some(step.n)
    ensures var s' := Next(log, s, step);
            && n in s'.nodes
            && match step
               case Row(_, json) =>
                 s'.nodes[n] == Enqueued(s.nodes[n], Event(json, Wrap64(s.nodes[step.n].st.eventIndex + 1)))
               case Sync(_, p) =>
                 s'.nodes[n] == Enqueued(s.nodes[n], Pos(Checkpoint(p.file, p.pos, s.nodes[step.n].st.eventIndex)))
               case Keepalive(_) => s'.nodes[n] == Enqueued(s.nodes[n], Tick)
               case Crash(_) => s'.nodes[n] == s.nodes[n].(upstream := None)
               case Do(_) => s.nodes[step.n].todo[0].Forward? ==> s'.nodes[n] == s.nodes[n]
               case _ => s'.nodes[n] == s.nodes[n]
  {
    hide UnpackPos, DrainTo, Installed, Synced, Restored, ItemOk, MessageOf, Frame, Acted;
  }

  function Enqueued(nd: Node, item: Item): Node {
    nd.(wire := nd.wire + Frame(MessageOf(item)))
  }

  lemma CarriesLater(parse: Parser, made: set<Checkpoint>, made': set<Checkpoint>, nd: Node, items: seq<Item>)
    requires Carries(parse, made, nd, items) && made <= made'
    ensures Carries(parse, made', nd, items)
  {
    hide Holds, Wire;
  }

  lemma CarriesItems(parse: Parser, made: set<Checkpoint>, nd: Node, items: seq<Item>)
    requires Carries(parse, made, nd, items)
    ensures ItemsOk(parse, items)
  {
  }

  lemma FedLater(log: Log, made: set<Checkpoint>, made': set<Checkpoint>, nd: Node, since: nat, v: Feed,
                 items: seq<Item>)
    requires Fed(log, made, nd, since, v, items) && made <= made'
    ensures Fed(log, made', nd, since, v, items)
  {
    hide ServedFrom, InOrder, Carries, Kept;
    CarriesItems(log.parse, made, nd, items);
    CarriesLater(log.parse, made, made', nd, items);
  }

  // ---------- the steps of others ----------

  lemma FedElsewhere(log: Log, s: System, step: Step, n: NodeId, since: nat, v: Feed)
    requires IsFed(log, s, n, since, v) && Enabled(log, s, step) && step.n != n && s.nodes[n].upstream != Some(step.n)
    ensures IsFed(log, Next(log, s, step), n, since, v) && Watched(log, s, step, n, v) == v
  {
    hide Enabled, Next, Fed, Reach, Pending;
    var items :| Fed(log, s.made, s.nodes[n], since, v, items) &&
      Follower(log, s, n, v, Reach(log, Pending(log, s.nodes[n], items), v.far));
    Untouched(log, s, step, n);
    MadeStays(log, s, step);
    var s' := Next(log, s, step);
    FedLater(log, s.made, s'.made, s.nodes[n], since, v, items);
    if s.nodes[n].upstream.Some? {
      OthersStep(log, s, step, s.nodes[n].upstream.value);
    }
    assert Follower(log, s', n, v, Reach(log, Pending(log, s'.nodes[n], items), v.far));
  }

  // ---------- the steps of the sender ----------

  predicate Quiet(s: System, step: Step)
    requires step.n in s.nodes
  {
    step.Promote? || step.Demote? || step.Read? || step.Cut? || step.Connect? ||
    (step.Do? && s.nodes[step.n].todo != [] && s.nodes[step.n].todo[0].Forward?)
  }

  lemma QuietLeads(log: Log, s: System, step: Step, m: NodeId, reach: nat)
    requires Enabled(log, s, step) && Safe(log, s, step) && step.n == m && Quiet(s, step)
    requires Leads(log, s.nodes[m], reach)
    ensures m in Next(log, s, step).nodes && Leads(log, Next(log, s, step).nodes[m], reach)
  {
    hide UnpackPos, DrainTo, Installed, ItemOk, MessageOf, Frame;
  }

  /** A step of the sender that sends nothing on the connection. */
  lemma FedQuiet(log: Log, s: System, step: Step, n: NodeId, since: nat, v: Feed)
    requires IsFed(log, s, n, since, v) && Enabled(log, s, step) && Safe(log, s, step)
    requires step.n != n && s.nodes[n].upstream == Some(step.n) && Quiet(s, step)
    ensures IsFed(log, Next(log, s, step), n, since, v) && Watched(log, s, step, n, v) == v
  {
    hide Next, Fed, Reach, Pending;
    var items :| Fed(log, s.made, s.nodes[n], since, v, items) &&
      Follower(log, s, n, v, Reach(log, Pending(log, s.nodes[n], items), v.far));
    var s' := Next(log, s, step);
    MadeStays(log, s, step);
    FedLater(log, s.made, s'.made, s.nodes[n], since, v, items);
    Fanned(log, s, step, n);
    QuietLeads(log, s, step, step.n, Reach(log, Pending(log, s.nodes[n], items), v.far));
    assert Follower(log, s', n, v, Reach(log, Pending(log, s'.nodes[n], items), v.far));
  }

  /** A message more on the connection. */
  lemma FedMore(log: Log, made: set<Checkpoint>, nd: Node, since: nat, v: Feed, items: seq<Item>,
                item: Item, made': set<Checkpoint>)
    requires Fed(log, made, nd, since, v, items) && nd.upstream.Some? && made <= made'
    requires ItemOk(log.parse, item) && ItemMade(made', item)
    requires !item.Tick? ==> Follows(log, ActionsOf(log.parse, item)[0], Reach(log, Pending(log, nd, items), v.far))
    ensures Fed(log, made', Enqueued(nd, item), since, v, items + [item])
    ensures Reach(log, Pending(log, Enqueued(nd, item), items + [item]), v.far)
         == Reach(log, ActionsOf(log.parse, item), Reach(log, Pending(log, nd, items), v.far))
  {
    hide ServedFrom, InOrder, Carries, Follows, Actions, ActionsOf, ItemOk, ItemMade, Frame, MessageOf, Reach, Kept;
    CarriesItems(log.parse, made, nd, items);
    CarriesMore(log.parse, made, made', nd, items, item);
    ActionsLast(log.parse, items, item);
    PendingMore(log, nd, items, item, v.far);
    SameKept(log, nd, Enqueued(nd, item));
  }

  lemma SameKept(log: Log, nd: Node, nd': Node)
    requires nd'.up == nd.up && nd'.st == nd.st
    ensures Kept(log, nd') == Kept(log, nd)
  {
    hide ReadBack;
  }

  lemma PendingMore(log: Log, nd: Node, items: seq<Item>, item: Item, f: nat)
    requires ItemsOk(log.parse, items) && ItemOk(log.parse, item) && ItemsOk(log.parse, items + [item])
    requires InOrder(log, Pending(log, nd, items), f)
    requires !item.Tick? ==> Follows(log, ActionsOf(log.parse, item)[0], Reach(log, Pending(log, nd, items), f))
    ensures var pending' := Pending(log, Enqueued(nd, item), items + [item]);
            && InOrder(log, pending', f)
            && Reach(log, pending', f) == Reach(log, ActionsOf(log.parse, item), Reach(log, Pending(log, nd, items), f))
  {
    hide InOrder, Follows, Actions, ActionsOf, ItemOk, Frame, MessageOf, Reach;
    OneAction(log.parse, item);
    ActionsLast(log.parse, items, item);
    var pending, more := Pending(log, nd, items), ActionsOf(log.parse, item);
    assert Pending(log, Enqueued(nd, item), items + [item]) == pending + more;
    if item.Tick? {
      assert more == [] && pending + more == pending;
      ReachNothing(log, Reach(log, pending, f));
    } else {
      assert more == [more[0]];
      InOrderMore(log, pending, more[0], f);
    }
  }

  lemma CarriesMore(parse: Parser, made: set<Checkpoint>, made': set<Checkpoint>, nd: Node, items: seq<Item>,
                    item: Item)
    requires Carries(parse, made, nd, items) && made <= made' && nd.upstream.Some?
    requires ItemOk(parse, item) && ItemMade(made', item)
    ensures Carries(parse, made', Enqueued(nd, item), items + [item])
  {
    hide Holds, Wire, ItemOk, Frame, MessageOf, GoesOn;
    HoldsMore(parse, nd.buffer, items, item);
    GoesOnLonger(Wire(items), nd.buffer.len, nd.wire, Frame(MessageOf(item)));
  }

  /** What a message does to what is watched. */
  function SentWith(log: Log, item: Item, v: Feed): Feed {
    if item.Event? then v.(sent := Max(v.sent, log.rowOf(item.json) + 1)) else v
  }

  /** What the sender puts on the connection follows on what it has sent. */
  predicate SendsOn(log: Log, s': System, x: NodeId, item: Item, reach: nat) {
    && ItemOk(log.parse, item) && ItemMade(s'.made, item)
    && (!item.Tick? ==> Follows(log, ActionsOf(log.parse, item)[0], reach))
    && x in s'.nodes && Leads(log, s'.nodes[x], Reach(log, ActionsOf(log.parse, item), reach))
  }

  /** The steps that put a message on the connection, and the message. */
  predicate Sending(s: System, step: Step)
    requires step.n in s.nodes
  {
    step.Row? || step.Sync? || step.Keepalive? ||
    (step.Do? && s.nodes[step.n].todo != [] && s.nodes[step.n].todo[0].Install? &&
     UnpackPos(s.nodes[step.n].todo[0].record).Some?)
  }

  function ItemSent(s: System, step: Step): Item
    requires step.n in s.nodes && Sending(s, step)
  {
    match step
    case Row(x, json) => Event(json, Wrap64(s.nodes[x].st.eventIndex + 1))
    case Sync(x, p) => Pos(Checkpoint(p.file, p.pos, s.nodes[x].st.eventIndex))
    case Keepalive(_) => Tick
    case Do(x) => Pos(UnpackPos(s.nodes[x].todo[0].record).value)
  }

  lemma FedBySender(log: Log, s: System, step: Step, n: NodeId, since: nat, v: Feed)
    requires Inv(log, s) && IsFed(log, s, n, since, v) && Enabled(log, s, step) && Direct(log, s, step, n, v)
    requires step.n != n && s.nodes[n].upstream == Some(step.n) && Sending(s, step)
    ensures IsFed(log, Next(log, s, step), n, since, Watched(log, s, step, n, v))
  {
    hide Inv, Next, Fed, Leads, Pending, Follows, ActionsOf, ItemOk, ItemMade, Reach, Direct, ItemSent, SendsOn;
    var items :| Fed(log, s.made, s.nodes[n], since, v, items) &&
      Follower(log, s, n, v, Reach(log, Pending(log, s.nodes[n], items), v.far));
    var s' := Next(log, s, step);
    var reach := Reach(log, Pending(log, s.nodes[n], items), v.far);
    var item := ItemSent(s, step);
    var v' := Watched(log, s, step, n, v);
    MadeStays(log, s, step);
    SenderFans(log, s, step, n);
    SenderSends(log, s, step, n, v, reach);
    OnConnection(log, s.made, s', s.nodes[n], step.n, since, v, items, item, reach);
    WatchedSent(log, s, step, n, v);
    FedSent(log, s'.made, s'.nodes[n], since, v, items + [item], v');
    assert Follower(log, s', n, v', Reach(log, Pending(log, s'.nodes[n], items + [item]), v'.far));
  }

  /** The message, on the connection. */
  lemma OnConnection(log: Log, made: set<Checkpoint>, s': System, nd: Node, x: NodeId, since: nat, v: Feed,
                     items: seq<Item>, item: Item, reach: nat)
    requires Fed(log, made, nd, since, v, items) && nd.upstream.Some? && made <= s'.made
    requires reach == Reach(log, Pending(log, nd, items), v.far) && SendsOn(log, s', x, item, reach) && v.sent <= reach
    ensures Fed(log, s'.made, Enqueued(nd, item), since, v, items + [item])
    ensures var reach' := Reach(log, Pending(log, Enqueued(nd, item), items + [item]), v.far);
            x in s'.nodes && Leads(log, s'.nodes[x], reach') && SentWith(log, item, v).sent <= reach'
  {
    hide Fed, Leads, Pending, Follows, ActionsOf, ItemOk, ItemMade, Reach;
    FedMore(log, made, nd, since, v, items, item, s'.made);
    SentReached(log, item, v, reach);
  }

  lemma WatchedSent(log: Log, s: System, step: Step, n: NodeId, v: Feed)
    requires Inv(log, s) && Enabled(log, s, step) && step.n != n && n in s.nodes
    requires s.nodes[n].upstream == Some(step.n) && Sending(s, step)
    ensures Watched(log, s, step, n, v) == SentWith(log, ItemSent(s, step), v)
  {
    hide Inv, ItemOk, UnpackPos;
  }

  lemma SenderFans(log: Log, s: System, step: Step, n: NodeId)
    requires Inv(log, s) && Enabled(log, s, step) && step.n != n && n in s.nodes
    requires s.nodes[n].upstream == Some(step.n) && Sending(s, step)
    ensures n in Next(log, s, step).nodes
    ensures Next(log, s, step).nodes[n] == Enqueued(s.nodes[n], ItemSent(s, step))
  {
    hide Inv, Next, UnpackPos;
    if step.Do? {
      var c := InstallMade(log, s, step.n);
      RelayFans(log, s, step.n, n, c);
    } else {
      Fanned(log, s, step, n);
    }
  }

  /** The checkpoint a node is about to install is one a leader made. */
  lemma InstallMade(log: Log, s: System, x: NodeId) returns (c: Checkpoint)
    requires Inv(log, s) && x in s.nodes && s.nodes[x].todo != [] && s.nodes[x].todo[0].Install?
    ensures c in s.made && s.nodes[x].todo[0] == Install(Record(c)) && UnpackPos(Record(c)) == Some(c)
    ensures ItemOk(log.parse, Pos(c)) && |c.file| <= 494 && Good(log, s.tip, c)
  {
    hide StateOk, LinkOk, Covered, Numbered, UnpackPos, Record, ItemOk;
    assert NodeOk(log, s.tip, s.made, s.nodes[x]);
    c := FirstInstall(log, s.tip, s.made, s.nodes[x]);
    GoodUnpacks(log, s.tip, c);
  }

  lemma RelayFans(log: Log, s: System, x: NodeId, n: NodeId, c: Checkpoint)
    requires Enabled(log, s, Do(x)) && n in s.nodes && n != x && s.nodes[n].upstream == Some(x)
    requires s.nodes[x].todo[0] == Install(Record(c)) && UnpackPos(Record(c)) == Some(c)
    ensures var s' := Next(log, s, Do(x));
            && n in s'.nodes && s'.nodes[n] == Enqueued(s.nodes[n], Pos(c))
            && x in s'.nodes && s'.nodes[x].up == s.nodes[x].up && s'.nodes[x].cursor == s.nodes[x].cursor
            && s'.nodes[x].st.last == PosOf(c) && s'.made == s.made
  {
    hide Record, UnpackPos, Frame, Packet, WriteAt;
  }

  lemma SenderSends(log: Log, s: System, step: Step, n: NodeId, v: Feed, reach: nat)
    requires n in s.nodes && Enabled(log, s, step) && Direct(log, s, step, n, v)
    requires step.n != n && s.nodes[n].upstream == Some(step.n) && Sending(s, step)
    requires Inv(log, s)
    requires Leads(log, s.nodes[step.n], reach) && v.sent <= reach
    ensures SendsOn(log, Next(log, s, step), step.n, ItemSent(s, step), reach)
  {
    hide Inv, Next, Leads, Follows, ItemOk, ActionsOf, Reach, UnpackPos, Enabled, Direct, SendsOn;
    match step {
      case Row(x, json) => RowSends(log, s, x, json, reach);
      case Sync(x, p) => SyncSends(log, s, x, p, reach);
      case Keepalive(x) => TickSends(log, s, x, reach);
      case Do(x) =>
        RelayWithin(log, s, x, n, v);
        RelaySends(log, s, x, n, reach);
    }
  }

  lemma RelayWithin(log: Log, s: System, x: NodeId, n: NodeId, v: Feed)
    requires n in s.nodes && Enabled(log, s, Do(x)) && Direct(log, s, Do(x), n, v)
    requires x != n && s.nodes[n].upstream == Some(x)
    requires s.nodes[x].todo[0].Install? && UnpackPos(s.nodes[x].todo[0].record).Some?
    ensures log.ord(PosOf(UnpackPos(s.nodes[x].todo[0].record).value)) <= v.sent
  {
    hide UnpackPos;
  }

  lemma RowSends(log: Log, s: System, m: NodeId, json: bytes, reach: nat)
    requires Inv(log, s) && Enabled(log, s, Row(m, json)) && Leads(log, s.nodes[m], reach)
    ensures SendsOn(log, Next(log, s, Row(m, json)), m, Event(json, Wrap64(s.nodes[m].st.eventIndex + 1)), reach)
  {
    hide Inv, Next, ItemOk;
    Running(log, s, m);
    OwnRow(log, s, m, json);
    var item := Event(json, Wrap64(s.nodes[m].st.eventIndex + 1));
    ReachOne(log, ActionsOf(log.parse, item)[0], reach);
  }

  lemma SyncSends(log: Log, s: System, m: NodeId, p: Position, reach: nat)
    requires Inv(log, s) && Enabled(log, s, Sync(m, p)) && Leads(log, s.nodes[m], reach)
    ensures SendsOn(log, Next(log, s, Sync(m, p)), m, Pos(Checkpoint(p.file, p.pos, s.nodes[m].st.eventIndex)), reach)
  {
    hide Inv, Next, ItemOk, Record, UnpackPos;
    Running(log, s, m);
    OwnSync(log, s, m, p);
    var c := Checkpoint(p.file, p.pos, s.nodes[m].st.eventIndex);
    GoodUnpacks(log, s.tip, c);
    ReachOne(log, Install(Record(c)), reach);
  }

  /** A checkpoint passed on, within what has been sent. */
  lemma RelaySends(log: Log, s: System, x: NodeId, n: NodeId, reach: nat)
    requires Inv(log, s) && Enabled(log, s, Do(x)) && Leads(log, s.nodes[x], reach)
    requires n in s.nodes && n != x && s.nodes[n].upstream == Some(x)
    requires s.nodes[x].todo[0].Install? && UnpackPos(s.nodes[x].todo[0].record).Some?
    requires log.ord(PosOf(UnpackPos(s.nodes[x].todo[0].record).value)) <= reach
    ensures SendsOn(log, Next(log, s, Do(x)), x, Pos(UnpackPos(s.nodes[x].todo[0].record).value), reach)
  {
    hide Inv, Next, ItemOk, Record, UnpackPos, Good;
    var c := InstallMade(log, s, x);
    RelayFans(log, s, x, n, c);
    ReachOne(log, Install(Record(c)), reach);
  }

  lemma FedSent(log: Log, made: set<Checkpoint>, nd: Node, since: nat, v: Feed, items: seq<Item>, v': Feed)
    requires Fed(log, made, nd, since, v, items) && v'.got == v.got && v'.far == v.far
    ensures Fed(log, made, nd, since, v', items)
  {
    hide ServedFrom, InOrder, Carries, Kept;
    CarriesItems(log.parse, made, nd, items);
  }

  lemma SentReached(log: Log, item: Item, v: Feed, reach: nat)
    requires v.sent <= reach && ItemOk(log.parse, item)
    ensures SentWith(log, item, v).sent <= Reach(log, ActionsOf(log.parse, item), reach)
  {
    hide MessageOf;
    if item.Event? {
      ReachOne(log, ActionsOf(log.parse, item)[0], reach);
    }
  }

  lemma TickSends(log: Log, s: System, m: NodeId, reach: nat)
    requires Enabled(log, s, Keepalive(m)) && Leads(log, s.nodes[m], reach)
    ensures SendsOn(log, Next(log, s, Keepalive(m)), m, Tick, reach)
  {
    hide Frame, MessageOf;
    ReachNothing(log, reach);
    TickFits(log.parse);
  }

  lemma TickFits(parse: Parser)
    ensures ItemOk(parse, Tick)
  {
  }

  /** What a running node's own numbering is. */
  lemma Running(log: Log, s: System, m: NodeId)
    requires Inv(log, s) && m in s.nodes && s.nodes[m].cursor.Some?
    ensures log.start <= s.nodes[m].cursor.value <= s.tip
    ensures s.nodes[m].st.eventIndex == log.base + s.nodes[m].cursor.value
    ensures log.Valid() && s.tip <= log.limit
  {
    hide LinkOk, Good, Covered, Numbered, ReadBack, ActionOk;
    assert NodeOk(log, s.tip, s.made, s.nodes[m]);
  }

  lemma OwnSync(log: Log, s: System, m: NodeId, p: Position)
    requires Enabled(log, s, Sync(m, p))
    ensures var s' := Next(log, s, Sync(m, p));
            && m in s'.nodes && s'.nodes[m].up && s'.nodes[m].cursor == s.nodes[m].cursor
            && s'.nodes[m].st.last == p
            && Checkpoint(p.file, p.pos, s.nodes[m].st.eventIndex) in s'.made
  {
    hide Record, WriteAt, MessageOf, Frame;
  }

  lemma FedAfterCrash(log: Log, s: System, n: NodeId, m: NodeId, since: nat, v: Feed)
    requires IsFed(log, s, n, since, v) && Enabled(log, s, Crash(m)) && n != m && s.nodes[n].upstream == Some(m)
    ensures IsFed(log, Next(log, s, Crash(m)), n, since, v)
  {
    hide Next, ServedFrom, InOrder, Carries, Pending, Kept;
    var items :| Fed(log, s.made, s.nodes[n], since, v, items);
    var s' := Next(log, s, Crash(m));
    Fanned(log, s, Crash(m), n);
    MadeStays(log, s, Crash(m));
    SameKept(log, s.nodes[n], s'.nodes[n]);
    FedStays(log, s.made, s.nodes[n], since, v, items, s'.made, s'.nodes[n]);
  }

  // ---------- the steps of the follower ----------

  /** The same connection. */
  lemma SameCarries(parse: Parser, made: set<Checkpoint>, nd: Node, items: seq<Item>, made': set<Checkpoint>, nd': Node)
    requires Carries(parse, made, nd, items) && made <= made'
    requires nd'.buffer == nd.buffer && nd'.wire <= nd.wire
    requires nd'.upstream.Some? ==> nd.upstream.Some? && nd'.wire == nd.wire
    ensures Carries(parse, made', nd', items)
  {
    hide Holds, Wire, GoesOn;
    GoesOnLess(Wire(items), nd.buffer.len, nd.wire, nd'.wire);
  }

  /** One more row served. */
  lemma ServedMore(log: Log, served: seq<bytes>, since: nat, f: nat, json: bytes)
    requires ServedFrom(log, served, since, f) && log.rowOf(json) <= f && NumberedText(log, json)
    ensures ServedFrom(log, served + [json], since, Max(f, log.rowOf(json) + 1))
  {
    forall row: nat | since <= row < Max(f, log.rowOf(json) + 1)
      ensures HasServed(log, served + [json], row)
    {
      if row < f {
        assert HasServed(log, served, row);
        var i :| 0 <= i < |served| && log.rowOf(served[i]) == row && NumberedText(log, served[i]);
        assert (served + [json])[i] == served[i];
      } else {
        assert (served + [json])[|served|] == json;
      }
    }
  }

  /** A step that touches neither connection nor messages. */
  lemma FedStays(log: Log, made: set<Checkpoint>, nd: Node, since: nat, v: Feed, items: seq<Item>,
                 made': set<Checkpoint>, nd': Node)
    requires Fed(log, made, nd, since, v, items) && made <= made'
    requires nd'.buffer == nd.buffer && nd'.wire <= nd.wire && nd'.todo == nd.todo && nd'.served == nd.served
    requires nd'.upstream.Some? ==> nd'.upstream == nd.upstream && nd'.wire == nd.wire
    requires nd.st.cache != [] ==> nd'.st.cache != []
    requires Kept(log, nd') == Kept(log, nd) || Kept(log, nd') <= v.far
    requires nd'.cursor.Some? ==> nd'.cursor.value <= v.far
    ensures Fed(log, made', nd', since, v, items)
    ensures Pending(log, nd', items) == Pending(log, nd, items)
  {
    hide ServedFrom, InOrder, Reach, Carries, Kept;
    CarriesItems(log.parse, made, nd, items);
    SameCarries(log.parse, made, nd, items, made', nd');
  }

  /** What the follower's own step needs of its node. */
  predicate Allows(log: Log, nd: Node, step: Step, v: Feed) {
    match step
    case Row(_, json) => nd.cursor.Some? && log.rowOf(json) == nd.cursor.value && NumberedText(log, json)
    case Sync(_, p) => nd.cursor == Some(log.ord(p))
    case Read(_, k, _) =>
      nd.buffer.Valid() && nd.todo == [] && k <= READ_SIZE && k <= |nd.wire| && (Primed(nd.buffer) || k >= 4)
    case Do(_) => nd.todo != [] && !nd.st.exiting && nd.st.open
    case Promote(_) => log.ord(nd.st.last) <= v.far
    case Cut(_, kept) => kept <= |nd.wire|
    case _ => step.Keepalive? || step.Demote?
  }

  function OwnFeed(log: Log, nd: Node, step: Step, v: Feed): Feed
    requires Allows(log, nd, step, v)
  {
    match step
    case Row(_, json) => v.(far := Max(v.far, nd.cursor.value + 1))
    case Do(_) => AfterAction(log, nd, v)
    case _ => v
  }

  lemma FedRow(log: Log, made: set<Checkpoint>, nd: Node, since: nat, v: Feed, items: seq<Item>, step: Step)
    requires Fed(log, made, nd, since, v, items) && step.Row? && Allows(log, nd, step, v) && nd.up
    ensures var nd', v' := NodeAfter(log, nd, step), OwnFeed(log, nd, step, v);
            && Fed(log, made, nd', since, v', items)
            && Reach(log, Pending(log, nd, items), v.far) <= Reach(log, Pending(log, nd', items), v'.far)
  {
    hide ServedFrom, InOrder, Reach, Carries, Wrap64, ReadBack;
    CarriesItems(log.parse, made, nd, items);
    var nd' := NodeAfter(log, nd, step);
    var far' := Max(v.far, nd.cursor.value + 1);
    ServedMore(log, nd.served, since, v.far, step.json);
    SameCarries(log.parse, made, nd, items, made, nd');
    InOrderLater(log, Pending(log, nd, items), v.far, far');
    ReachLater(log, Pending(log, nd, items), v.far, far');
  }

  lemma FedRead(log: Log, made: set<Checkpoint>, nd: Node, since: nat, v: Feed, items: seq<Item>, step: Step)
      returns (items': seq<Item>)
    requires Fed(log, made, nd, since, v, items) && step.Read? && Allows(log, nd, step, v) && nd.up
    ensures var nd' := NodeAfter(log, nd, step);
            && Fed(log, made, nd', since, v, items')
            && Pending(log, nd', items') == Pending(log, nd, items)
  {
    hide ServedFrom, InOrder, Reach, Primed, Wire, ItemMade, Actions, ItemOk, ReadBack;
    hide Complete, Frames, Messages, DrainTo, GoesOn;
    CarriesItems(log.parse, made, nd, items);
    var k := step.k;
    var data, rest := nd.wire[..k], nd.wire[k..];
    assert data + rest == nd.wire;
    ReadTakes(log.parse, nd.buffer, data, step.extra, items, rest);
    var j := Complete(Frames(Messages(items)), nd.buffer.len + |data|);
    items' := items[j..];
    ActionsAppend(log.parse, items[..j], items');
    assert items == items[..j] + items';
    hide Holds;
    var nd' := NodeAfter(log, nd, step);
    assert Pending(log, nd', items') == Pending(log, nd, items);
    assert Carries(log.parse, made, nd', items');
  }

  lemma FirstPending(log: Log, nd: Node, items: seq<Item>, f: nat)
    requires ItemsOk(log.parse, items) && nd.todo != [] && InOrder(log, Pending(log, nd, items), f)
    ensures var g := Reach(log, [nd.todo[0]], f);
            && Follows(log, nd.todo[0], f)
            && Pending(log, Acted(nd), items) == Pending(log, nd, items)[1..]
            && InOrder(log, Pending(log, Acted(nd), items), g)
            && Reach(log, Pending(log, nd, items), f) == Reach(log, Pending(log, Acted(nd), items), g)
  {
    hide Reach, Follows, Actions, Installed;
    var pending := Pending(log, nd, items);
    assert pending[..1] == [nd.todo[0]] && pending[0] == nd.todo[0];
    ReachFirst(log, pending, f);
    assert Acted(nd).todo == nd.todo[1..];
    assert nd.todo + Actions(log.parse, items) == [nd.todo[0]] + (nd.todo[1..] + Actions(log.parse, items));
  }

  lemma InstalledLast(st: State, r: bytes)
    requires UnpackPos(r).Some? && !st.exiting && st.open
    ensures Installed(st, r).last == PosOf(UnpackPos(r).value) && Installed(st, r).cache != []
  {
    assert |r| >= 18;
  }

  lemma FedDo(log: Log, made: set<Checkpoint>, nd: Node, since: nat, v: Feed, items: seq<Item>, step: Step)
    requires Fed(log, made, nd, since, v, items) && step.Do? && Allows(log, nd, step, v) && nd.up
    ensures var nd', v' := Acted(nd), AfterAction(log, nd, v);
            && Fed(log, made, nd', since, v', items)
            && Reach(log, Pending(log, nd, items), v.far) == Reach(log, Pending(log, nd', items), v'.far)
  {
    hide ServedFrom, InOrder, Reach, Carries, UnpackPos, NumberedText, ReadBack;
    CarriesItems(log.parse, made, nd, items);
    FirstPending(log, nd, items, v.far);
    ReachOne(log, nd.todo[0], v.far);
    SameCarries(log.parse, made, nd, items, made, Acted(nd));
    if nd.todo[0].Forward? {
      ServedMore(log, nd.served, since, v.far, nd.todo[0].data);
    } else {
      InstalledLast(nd.st, nd.todo[0].record);
    }
  }

  lemma FedAside(log: Log, made: set<Checkpoint>, nd: Node, since: nat, v: Feed, items: seq<Item>, step: Step)
    requires Fed(log, made, nd, since, v, items) && Allows(log, nd, step, v) && nd.up
    requires step.Sync? || step.Keepalive? || step.Promote? || step.Demote? || step.Cut?
    ensures Fed(log, made, NodeAfter(log, nd, step), since, v, items)
    ensures Pending(log, NodeAfter(log, nd, step), items) == Pending(log, nd, items)
  {
    hide ServedFrom, InOrder, Carries, Pending, NodeAfter, Kept;
    Stays(log, nd, step, v);
    FedStays(log, made, nd, since, v, items, made, NodeAfter(log, nd, step));
  }

  lemma Stays(log: Log, nd: Node, step: Step, v: Feed)
    requires Allows(log, nd, step, v) && nd.up
    requires step.Sync? || step.Keepalive? || step.Promote? || step.Demote? || step.Cut?
    requires nd.cursor.Some? ==> nd.cursor.value <= v.far
    ensures var nd' := NodeAfter(log, nd, step);
            && nd'.buffer == nd.buffer && nd'.wire <= nd.wire && nd'.todo == nd.todo && nd'.served == nd.served
            && (nd'.upstream.Some? ==> nd'.upstream == nd.upstream && nd'.wire == nd.wire)
            && (nd.st.cache != [] ==> nd'.st.cache != [])
            && (Kept(log, nd') == Kept(log, nd) || Kept(log, nd') <= v.far)
            && (nd'.cursor.Some? ==> nd'.cursor.value <= v.far)
  {
    hide Record, ReadBack;
  }

  /** The follower's own steps while it stays up and connected as it is. */
  lemma FedNode(log: Log, made: set<Checkpoint>, nd: Node, since: nat, v: Feed, items: seq<Item>, step: Step)
      returns (items': seq<Item>)
    requires Fed(log, made, nd, since, v, items) && Allows(log, nd, step, v) && nd.up
    ensures var nd', v' := NodeAfter(log, nd, step), OwnFeed(log, nd, step, v);
            && Fed(log, made, nd', since, v', items')
            && Reach(log, Pending(log, nd, items), v.far) <= Reach(log, Pending(log, nd', items'), v'.far)
  {
    hide Fed, NumberedText, Primed, Acted, DrainTo, Synced, Wrap64, Reach, Pending, AfterAction;
    items' := items;
    match step {
      case Row(_, _) => FedRow(log, made, nd, since, v, items, step);
      case Read(_, _, _) => items' := FedRead(log, made, nd, since, v, items, step);
      case Do(_) => FedDo(log, made, nd, since, v, items, step);
      case Sync(_, _) | Keepalive(_) | Promote(_) | Demote(_) | Cut(_, _) =>
        FedAside(log, made, nd, since, v, items, step);
    }
  }

  /** What the invariant and the environment give to them. */
  lemma AllowsOwn(log: Log, s: System, step: Step, n: NodeId, v: Feed)
    requires Inv(log, s) && step.n == n && Enabled(log, s, step) && Direct(log, s, step, n, v)
    requires !step.Crash? && !step.Restart? && !step.Connect?
    ensures Allows(log, s.nodes[n], step, v) && s.nodes[n].up
    ensures OwnFeed(log, s.nodes[n], step, v) == Watched(log, s, step, n, v)
  {
    hide Inv, ItemOk, Primed, UnpackPos;
    StateOpen(log, s, n);
    if step.Row? {
      Running(log, s, n);
    }
  }

  lemma StateOpen(log: Log, s: System, n: NodeId)
    requires Inv(log, s) && n in s.nodes
    ensures !s.nodes[n].st.exiting && s.nodes[n].st.open
  {
    hide LinkOk, Good, Covered, Numbered, ReadBack, ActionOk;
    assert NodeOk(log, s.tip, s.made, s.nodes[n]);
  }

  lemma FedOwn(log: Log, s: System, step: Step, n: NodeId, since: nat, v: Feed)
    requires Inv(log, s) && IsFed(log, s, n, since, v) && Enabled(log, s, step)
    requires step.n == n && Direct(log, s, step, n, v)
    requires !step.Crash? && !step.Restart? && !step.Connect?
    ensures IsFed(log, Next(log, s, step), n, since, Watched(log, s, step, n, v))
  {
    hide Inv, Next, Fed, Reach, Pending, NodeAfter, Direct, Allows, OwnFeed, Leads;
    var nd := s.nodes[n];
    var items :| Fed(log, s.made, nd, since, v, items) &&
      Follower(log, s, n, v, Reach(log, Pending(log, nd, items), v.far));
    AllowsOwn(log, s, step, n, v);
    MadeStays(log, s, step);
    OwnNode(log, s, step);
    var items' := FedNode(log, s.made, nd, since, v, items, step);
    NoNewLink(log, nd, step, v);
    FollowsOn(log, s, step, n, since, v, items, items');
  }

  lemma NoNewLink(log: Log, nd: Node, step: Step, v: Feed)
    requires Allows(log, nd, step, v)
    ensures NodeAfter(log, nd, step).upstream.Some? ==> NodeAfter(log, nd, step).upstream == nd.upstream
  {
    hide DrainTo, Synced, Installed, Primed;
  }

  /** The sender is as it was. */
  lemma FollowsOn(log: Log, s: System, step: Step, n: NodeId, since: nat, v: Feed, items: seq<Item>, items': seq<Item>)
    requires n in s.nodes && Enabled(log, s, step) && step.n == n && !step.Connect?
    requires Fed(log, s.made, s.nodes[n], since, v, items)
    requires Follower(log, s, n, v, Reach(log, Pending(log, s.nodes[n], items), v.far))
    requires var s', v' := Next(log, s, step), Watched(log, s, step, n, v);
             && n in s'.nodes && Fed(log, s.made, s'.nodes[n], since, v', items') && s.made <= s'.made
             && (s'.nodes[n].upstream.Some? ==> s'.nodes[n].upstream == s.nodes[n].upstream)
             && Reach(log, Pending(log, s.nodes[n], items), v.far)
                  <= Reach(log, Pending(log, s'.nodes[n], items'), v'.far)
    ensures IsFed(log, Next(log, s, step), n, since, Watched(log, s, step, n, v))
  {
    hide Next, Fed, Reach, Pending;
    var s', v' := Next(log, s, step), Watched(log, s, step, n, v);
    FedLater(log, s.made, s'.made, s'.nodes[n], since, v', items');
    if s'.nodes[n].upstream.Some? {
      OthersStep(log, s, step, s.nodes[n].upstream.value);
    }
    WatchedSame(log, s, step, n, v);
    assert Follower(log, s', n, v', Reach(log, Pending(log, s'.nodes[n], items'), v'.far));
  }

  lemma WatchedSame(log: Log, s: System, step: Step, n: NodeId, v: Feed)
    requires n in s.nodes && Enabled(log, s, step) && step.n == n && !step.Connect?
    ensures Watched(log, s, step, n, v).sent == v.sent
  {
    hide UnpackPos, ItemOk, Primed;
  }

  // ---------- the follower's end and new beginning ----------

  /** The follower crashes: its messages and its memory are gone, its cache file and what its subscribers
      have been sent are not. */
  lemma FedDown(log: Log, s: System, n: NodeId, since: nat, v: Feed)
    requires Inv(log, s) && IsFed(log, s, n, since, v) && Enabled(log, s, Crash(n))
    ensures IsFed(log, Next(log, s, Crash(n)), n, since, v)
  {
    hide Inv, Next, Fed, Kept;
    var items :| Fed(log, s.made, s.nodes[n], since, v, items);
    if s.nodes[n].st.cache != [] {
      KeptAgrees(log, s, n);
    }
    CrashStep(log, s, n);
    CrashEmpties(log, s, n);
    var s' := Next(log, s, Crash(n));
    FedEmptied(log, s.made, s.nodes[n], since, v, items, s'.made, s'.nodes[n]);
  }

  lemma FedEmptied(log: Log, made: set<Checkpoint>, nd: Node, since: nat, v: Feed, items: seq<Item>,
                   made': set<Checkpoint>, nd': Node)
    requires Fed(log, made, nd, since, v, items)
    requires nd'.buffer == EMPTY && nd'.wire == [] && nd'.todo == [] && nd'.served == nd.served
    requires nd'.st == nd.st && !nd'.up && nd'.cursor.None?
    requires nd.st.cache != [] ==> Kept(log, nd) == log.ord(PosOf(ReadBack(nd.st.cache)))
    ensures Fed(log, made', nd', since, v, [])
  {
    hide ServedFrom, Carries, ReadBack;
    CarriesNone(log.parse, made', nd');
    NoAction(log.parse);
    hide Actions;
    assert Pending(log, nd', []) == [];
  }

  lemma CrashEmpties(log: Log, s: System, n: NodeId)
    requires Enabled(log, s, Crash(n))
    ensures var s' := Next(log, s, Crash(n));
            && n in s'.nodes && s'.nodes[n].buffer == EMPTY && s'.nodes[n].wire == [] && s'.nodes[n].todo == []
            && s'.nodes[n].upstream.None? && s'.nodes[n].served == s.nodes[n].served
  {
  }

  lemma CarriesNone(parse: Parser, made: set<Checkpoint>, nd: Node)
    requires nd.buffer == EMPTY && nd.wire == []
    ensures Carries(parse, made, nd, [])
  {
  }

  lemma KeptAgrees(log: Log, s: System, n: NodeId)
    requires Inv(log, s) && n in s.nodes && s.nodes[n].st.cache != []
    ensures Kept(log, s.nodes[n]) == log.ord(PosOf(ReadBack(s.nodes[n].st.cache)))
  {
    hide LinkOk, Good, Covered, Numbered, ReadBack, ActionOk;
    assert NodeOk(log, s.tip, s.made, s.nodes[n]);
  }

  /** A safe restart resumes where the cache file does. */
  lemma FedUp(log: Log, s: System, n: NodeId, master: Position, since: nat, v: Feed)
    requires IsFed(log, s, n, since, v) && Enabled(log, s, Restart(n, master)) && Safe(log, s, Restart(n, master))
    requires s.nodes[n].cursor.None?
    ensures IsFed(log, Next(log, s, Restart(n, master)), n, since, v)
  {
    hide Next, Fed, Reach, Pending;
    var nd := s.nodes[n];
    var items :| Fed(log, s.made, nd, since, v, items) &&
      Follower(log, s, n, v, Reach(log, Pending(log, nd, items), v.far));
    MadeStays(log, s, Restart(n, master));
    RestartStep(log, s, n, master);
    var s' := Next(log, s, Restart(n, master));
    FedRestored(log, s.made, nd, since, v, items, s'.nodes[n]);
    FollowsOn(log, s, Restart(n, master), n, since, v, items, items);
  }

  lemma RestartStep(log: Log, s: System, n: NodeId, master: Position)
    requires Enabled(log, s, Restart(n, master))
    ensures var s' := Next(log, s, Restart(n, master));
            n in s'.nodes && s'.nodes[n] == s.nodes[n].(st := Restored(s.nodes[n].st.cache, master), up := true)
  {
  }

  lemma FedRestored(log: Log, made: set<Checkpoint>, nd: Node, since: nat, v: Feed, items: seq<Item>, nd': Node)
    requires Fed(log, made, nd, since, v, items) && !nd.up && nd.cursor.None?
    requires nd' == nd.(st := nd'.st, up := true) && nd'.st.cache == nd.st.cache
    requires nd.st.cache != [] ==> log.ord(nd'.st.last) == log.ord(PosOf(ReadBack(nd.st.cache)))
    ensures Fed(log, made, nd', since, v, items) && Pending(log, nd', items) == Pending(log, nd, items)
  {
    hide ServedFrom, InOrder, Carries, ReadBack;
    CarriesItems(log.parse, made, nd, items);
    SameCarries(log.parse, made, nd, items, made, nd');
  }

  /** A new connection, to a node that has not come further than the subscribers. */
  lemma FedAgain(log: Log, s: System, n: NodeId, m: NodeId, since: nat, v: Feed)
    requires Inv(log, s) && IsFed(log, s, n, since, v)
    requires Enabled(log, s, Connect(n, m)) && Safe(log, s, Connect(n, m)) && Direct(log, s, Connect(n, m), n, v)
    ensures IsFed(log, Next(log, s, Connect(n, m)), n, since, Watched(log, s, Connect(n, m), n, v))
  {
    hide Inv, Next, Fed, Leads, Pending;
    var nd := s.nodes[n];
    var items :| Fed(log, s.made, nd, since, v, items);
    NewConnection(log, s, n, m);
    LeadsAt(log, s, m);
    BufferValid(log, s, n);
    var s', v' := Next(log, s, Connect(n, m)), Watched(log, s, Connect(n, m), n, v);
    FedReset(log, s.made, nd, since, v, items, s'.nodes[n], v');
    LeadsFurther(log, s.nodes[m], v'.sent, Reach(log, Pending(log, s'.nodes[n], []), v'.far));
    assert Follower(log, s', n, v', Reach(log, Pending(log, s'.nodes[n], []), v'.far));
  }

  lemma LeadsFurther(log: Log, md: Node, reach: nat, reach': nat)
    requires Leads(log, md, reach) && reach <= reach'
    ensures Leads(log, md, reach')
  {
  }

  lemma FedReset(log: Log, made: set<Checkpoint>, nd: Node, since: nat, v: Feed, items: seq<Item>, nd': Node, v': Feed)
    requires Fed(log, made, nd, since, v, items) && v'.got == v.got && v'.far == v.far
    requires nd' == nd.(upstream := nd'.upstream, wire := []) && nd'.upstream.Some?
    requires nd.buffer.Valid() && nd.buffer.len == 0
    ensures Fed(log, made, nd', since, v', [])
  {
    hide ServedFrom, Carries, ReadBack, InOrder;
    CarriesItems(log.parse, made, nd, items);
    CarriesNothing(log.parse, made, nd');
    NoAction(log.parse);
    InOrderPrefix(log, nd.todo, Actions(log.parse, items), v.far);
    hide Actions;
    assert Pending(log, nd', []) == nd.todo + [] == nd.todo;
  }

  lemma LeadsAt(log: Log, s: System, m: NodeId)
    requires Inv(log, s) && m in s.nodes && s.nodes[m].up
    ensures Leads(log, s.nodes[m], ComeTo(log, s.nodes[m]))
  {
    hide LinkOk, Good, Covered, Numbered, ReadBack, ActionOk;
    assert NodeOk(log, s.tip, s.made, s.nodes[m]);
  }

  lemma BufferValid(log: Log, s: System, n: NodeId)
    requires Inv(log, s) && n in s.nodes
    ensures s.nodes[n].buffer.Valid()
  {
    hide StateOk, Good, Covered, Numbered, Primed, Wire, ItemMade;
    assert NodeOk(log, s.tip, s.made, s.nodes[n]);
  }

  lemma CarriesNothing(parse: Parser, made: set<Checkpoint>, nd: Node)
    requires nd.upstream.Some? && nd.wire == [] && nd.buffer.Valid() && nd.buffer.len == 0
    ensures Carries(parse, made, nd, [])
  {
  }

  // ---------- runs ----------

  lemma FedStep(log: Log, s: System, step: Step, n: NodeId, since: nat, v: Feed)
    requires Inv(log, s) && IsFed(log, s, n, since, v) && Enabled(log, s, step) && Safe(log, s, step)
    requires Direct(log, s, step, n, v)
    ensures IsFed(log, Next(log, s, step), n, since, Watched(log, s, step, n, v))
  {
    hide Inv, IsFed, Next, Safe, Direct;
    InCluster(log, s, n, since, v);
    if step.n != n {
      FedByOther(log, s, step, n, since, v);
    } else if step.Crash? {
      FedDown(log, s, n, since, v);
    } else if step.Restart? {
      DownDoesNotRun(log, s, n);
      FedUp(log, s, n, step.master, since, v);
    } else if step.Connect? {
      FedAgain(log, s, n, step.m, since, v);
    } else {
      FedOwn(log, s, step, n, since, v);
    }
  }

  lemma FedByOther(log: Log, s: System, step: Step, n: NodeId, since: nat, v: Feed)
    requires Inv(log, s) && IsFed(log, s, n, since, v) && Enabled(log, s, step) && Safe(log, s, step)
    requires Direct(log, s, step, n, v) && step.n != n && n in s.nodes
    ensures IsFed(log, Next(log, s, step), n, since, Watched(log, s, step, n, v))
  {
    hide Inv, IsFed, Next, Safe, Direct;
    if s.nodes[n].upstream != Some(step.n) {
      FedElsewhere(log, s, step, n, since, v);
    } else if Sending(s, step) {
      FedBySender(log, s, step, n, since, v);
    } else if step.Crash? {
      FedAfterCrash(log, s, n, step.n, since, v);
    } else {
      SenderUp(log, s, n, since, v);
      InstallUnpacks(log, s, step);
      FedQuiet(log, s, step, n, since, v);
    }
  }

  lemma InCluster(log: Log, s: System, n: NodeId, since: nat, v: Feed)
    requires IsFed(log, s, n, since, v)
    ensures n in s.nodes
  {
    hide Fed, Follower, Pending, Reach;
  }

  lemma SenderUp(log: Log, s: System, n: NodeId, since: nat, v: Feed)
    requires IsFed(log, s, n, since, v) && s.nodes[n].upstream.Some?
    ensures s.nodes[n].upstream.value in s.nodes && s.nodes[s.nodes[n].upstream.value].up
  {
    hide Fed, Pending, Reach;
  }

  lemma InstallUnpacks(log: Log, s: System, step: Step)
    requires Inv(log, s) && Enabled(log, s, step)
    ensures step.Do? && s.nodes[step.n].todo[0].Install? ==> UnpackPos(s.nodes[step.n].todo[0].record).Some?
  {
    hide Inv, UnpackPos, Record;
    if step.Do? && s.nodes[step.n].todo[0].Install? {
      var c := InstallMade(log, s, step.n);
    }
  }

  lemma DownDoesNotRun(log: Log, s: System, n: NodeId)
    requires Inv(log, s) && n in s.nodes
    ensures !s.nodes[n].up ==> s.nodes[n].cursor.None?
  {
    hide LinkOk, Good, Covered, Numbered, ReadBack, ActionOk;
    assert NodeOk(log, s.tip, s.made, s.nodes[n]);
  }

  /** A run without a step that leaves a gap. */
  predicate DirectRun(log: Log, s: System, n: NodeId, v: Feed, steps: seq<Step>)
    requires SafeRun(log, s, steps)
    decreases |steps|
  {
    steps == [] ||
    (n in s.nodes && Direct(log, s, steps[0], n, v) &&
     DirectRun(log, Next(log, s, steps[0]), n, Watched(log, s, steps[0], n, v), steps[1..]))
  }

  function FeedAfter(log: Log, s: System, n: NodeId, v: Feed, steps: seq<Step>): Feed
    requires SafeRun(log, s, steps) && DirectRun(log, s, n, v, steps)
    decreases |steps|
  {
    if steps == [] then v
    else FeedAfter(log, Next(log, s, steps[0]), n, Watched(log, s, steps[0], n, v), steps[1..])
  }

  lemma {:induction false} FedRun(log: Log, s: System, steps: seq<Step>, n: NodeId, since: nat, v: Feed)
    requires Inv(log, s) && IsFed(log, s, n, since, v)
    requires SafeRun(log, s, steps) && DirectRun(log, s, n, v, steps)
    ensures Inv(log, After(log, s, steps))
    ensures IsFed(log, After(log, s, steps), n, since, FeedAfter(log, s, n, v, steps))
    decreases |steps|
  {
    hide Inv, Safe, Enabled, Next, IsFed, Direct, Watched;
    if steps != [] {
      SafeStep(log, s, steps[0]);
      FedStep(log, s, steps[0], n, since, v);
      FedRun(log, Next(log, s, steps[0]), steps[1..], n, since, Watched(log, s, steps[0], n, v));
    }
  }

  /** A first connection to a running leader; the client has nothing left from before. */
  lemma FedFromConnect(log: Log, s: System, n: NodeId, m: NodeId)
    requires Inv(log, s) && Enabled(log, s, Connect(n, m)) && Safe(log, s, Connect(n, m)) && n != m
    requires s.nodes[n].cursor.None? && s.nodes[n].todo == [] && s.nodes[m].cursor.Some?
    ensures var since := s.nodes[m].cursor.value;
            IsFed(log, Next(log, s, Connect(n, m)), n, since, Feed(false, since, since))
  {
    hide Inv, Next, Leads, Carries, Actions, Kept;
    LeadsAt(log, s, m);
    BufferValid(log, s, n);
    NewConnection(log, s, n, m);
    var s' := Next(log, s, Connect(n, m));
    var nd' := s'.nodes[n];
    CarriesNothing(log.parse, s.made, nd');
    var far, items: seq<Item> := s.nodes[m].cursor.value, [];
    NoAction(log.parse);
    ReachNothing(log, far);
    assert Pending(log, nd', items) == [];
    assert Fed(log, s'.made, nd', far, Feed(false, far, far), items);
    assert Follower(log, s', n, Feed(false, far, far), Reach(log, Pending(log, nd', items), far));
  }

  /** No row is lost to a follower's subscribers, in any safe run after it connects to a running leader in
      which no step leaves a gap: the leader may stop, crash, lose the connection or follow another, and the
      follower may crash, restart, take over, step down and connect to others. At the end its subscribers
      have been sent every row from the next one when it connected up to `far`, each under its own number;
      it leads no further on; and once it holds a checkpoint of these rows, it would also be promoted no
      further on. */
  lemma NoRowLost(log: Log, s: System, leader: NodeId, before: seq<Step>, n: NodeId, m: NodeId, later: seq<Step>)
    requires Initial(log, s, leader) && SafeRun(log, s, before)
    requires var s1 := After(log, s, before);
             && Enabled(log, s1, Connect(n, m)) && Safe(log, s1, Connect(n, m)) && n != m
             && s1.nodes[n].cursor.None? && s1.nodes[n].todo == [] && s1.nodes[m].cursor.Some?
             && var since := s1.nodes[m].cursor.value;
                var s2 := Next(log, s1, Connect(n, m));
                SafeRun(log, s2, later) && DirectRun(log, s2, n, Feed(false, since, since), later)
    ensures var s1 := After(log, s, before);
            var since := s1.nodes[m].cursor.value;
            var s2 := Next(log, s1, Connect(n, m));
            SentAll(log, After(log, s2, later), n, since, FeedAfter(log, s2, n, Feed(false, since, since), later))
  {
    hide Inv, Next, IsFed, ServedFrom, Safe, Direct, Watched, SentAll;
    InitialInv(log, s, leader);
    RunKeepsInv(log, s, before);
    var s1 := After(log, s, before);
    var since := s1.nodes[m].cursor.value;
    FedFromConnect(log, s1, n, m);
    SafeStep(log, s1, Connect(n, m));
    var s2 := Next(log, s1, Connect(n, m));
    FedRun(log, s2, later, n, since, Feed(false, since, since));
    Served(log, After(log, s2, later), n, since, FeedAfter(log, s2, n, Feed(false, since, since), later));
  }

  predicate SentAll(log: Log, s: System, n: NodeId, since: nat, v: Feed) {
    && n in s.nodes
    && since <= v.far && ServedFrom(log, s.nodes[n].served, since, v.far)
    && (s.nodes[n].cursor.Some? ==> s.nodes[n].cursor.value <= v.far)
    && (v.got ==> s.nodes[n].st.cache != [] && log.ord(PosOf(ReadBack(s.nodes[n].st.cache))) <= v.far)
    && (v.got && s.nodes[n].up ==> log.ord(s.nodes[n].st.last) <= v.far)
  }

  lemma Served(log: Log, s: System, n: NodeId, since: nat, v: Feed)
    requires Inv(log, s) && IsFed(log, s, n, since, v)
    ensures SentAll(log, s, n, since, v)
  {
    hide Inv, ServedFrom, InOrder, Reach, Carries, Pending, Leads, ReadBack;
    if s.nodes[n].st.cache != [] {
      KeptAgrees(log, s, n);
    }
  }
}
