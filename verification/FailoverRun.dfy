/** A whole failover, step by step: what the theorems on all runs promise does come about.
    (binlog/binlog_handler.go, binlog/binlog.go, agent/agent.go, agent/client.go) */
module FailoverRun {
  import opened Wrappers
  import opened Bytes
  import opened GoSlice
  import opened PosRecord
  import opened CacheFile
  import opened BinlogHandler
  import opened AgentCodec
  import opened AgentNode
  import opened AgentLink
  import opened AgentItems
  import opened Cluster
  import opened Failover
  import opened Subscribers

  /** A step more at the end of a run. */
  lemma RunThen(log: Log, s: System, steps: seq<Step>, step: Step)
    requires Inv(log, s) && SafeRun(log, s, steps)
    requires Enabled(log, After(log, s, steps), step) && Safe(log, After(log, s, steps), step)
    ensures SafeRun(log, s, steps + [step])
    ensures After(log, s, steps + [step]) == Next(log, After(log, s, steps), step)
    ensures Inv(log, After(log, s, steps + [step]))
  {
    hide Inv, Enabled, Safe, Next, SafeRun, After;
    RunKeepsInv(log, s, steps);
    RunOne(log, After(log, s, steps), step);
    RunInTwo(log, s, steps, [step]);
    SafeStep(log, After(log, s, steps), step);
  }

  /** Only rows are delivered. */
  lemma SameDelivered(log: Log, s: System, step: Step)
    requires Enabled(log, s, step) && !step.Row?
    ensures Next(log, s, step).delivered == s.delivered
  {
    hide UnpackPos, DrainTo, Installed, Synced, Restored, ItemOk, MessageOf, Frame, Acted;
  }

  /** The leader runs at the row after the first, having delivered that one; the follower is connected to it
      and does not run. */
  predicate Leading(log: Log, s: System, m: NodeId, n: NodeId, deliveries: seq<Delivery>) {
    && m in s.nodes && n in s.nodes && m != n
    && s.delivered == deliveries && s.nodes[m].up && s.nodes[n].up
    && s.nodes[n].cursor.None? && s.nodes[n].upstream == Some(m)
    && !s.nodes[n].st.exiting && s.nodes[n].st.open
  }

  /** The frames of an event and of a checkpoint are under way to the follower. */
  predicate UnderWay(s: System, n: NodeId, a: Item, b: Item) {
    && n in s.nodes
    && var nd := s.nodes[n];
       nd.wire == Frame(MessageOf(a)) + Frame(MessageOf(b)) && nd.buffer == EMPTY && nd.todo == [] && nd.served == []
  }

  /** The follower connects, the leader delivers a row and makes a checkpoint. */
  lemma LeaderSends(log: Log, s: System, m: NodeId, n: NodeId, json: bytes, p: Position)
    requires Initial(log, s, m) && Inv(log, s) && n in s.nodes && n != m && s.nodes[n].up && s.nodes[n].upstream.None?
    requires log.start < log.limit && Tells(log, json, log.start, log.base + log.start + 1)
    requires log.known(p) && log.ord(p) == log.start + 1 && 0 < |p.file| <= 494 && p.pos > 0
    ensures var index := log.base + log.start + 1;
            var steps := [Connect(n, m)] + [Row(m, json)] + [Sync(m, p)];
            && -TWO_63 <= index < TWO_63
            && SafeRun(log, s, steps)
            && Leading(log, After(log, s, steps), m, n, [Delivery(m, log.start, index)])
            && UnderWay(After(log, s, steps), n, Event(json, index), Pos(Checkpoint(p.file, p.pos, index)))
            && Checkpoint(p.file, p.pos, index) in After(log, s, steps).made
  {
    hide Inv, Tells, MessageOf, Frame, SafeRun, After, Next;
    var index := log.base + log.start + 1;
    RunOne(log, s, Connect(n, m));
    NewConnection(log, s, n, m);
    SafeStep(log, s, Connect(n, m));
    var s1 := Next(log, s, Connect(n, m));
    assert Enabled(log, s1, Row(m, json));
    RunThen(log, s, [Connect(n, m)], Row(m, json));
    OwnRow(log, s1, m, json);
    OthersStep(log, s1, Row(m, json), n);
    Fanned(log, s1, Row(m, json), n);
    var s2 := Next(log, s1, Row(m, json));
    assert [] + Frame(MessageOf(Event(json, index))) == Frame(MessageOf(Event(json, index)));
    RunThen(log, s, [Connect(n, m)] + [Row(m, json)], Sync(m, p));
    OwnSync(log, s2, m, p);
    OthersStep(log, s2, Sync(m, p), n);
    Fanned(log, s2, Sync(m, p), n);
    SameDelivered(log, s2, Sync(m, p));
  }

  /** The follower reads one message whole and acts on it. */
  lemma TakesOne(log: Log, s: System, n: NodeId, item: Item, rest: bytes, a: Action)
    requires Inv(log, s) && n in s.nodes && ItemOk(log.parse, item) && !item.Tick?
    requires var nd := s.nodes[n];
             && nd.up && nd.cursor.None? && nd.todo == [] && nd.buffer.Valid() && nd.buffer.len == 0
             && nd.wire == Frame(MessageOf(item)) + rest && nd.upstream != Some(n)
    requires |Frame(MessageOf(item))| <= READ_SIZE && ActionsOf(log.parse, item) == [a]
    ensures var k := |Frame(MessageOf(item))|;
            var steps := [Read(n, k, 0)] + [Do(n)];
            && SafeRun(log, s, steps)
            && var s' := After(log, s, steps);
               && n in s'.nodes && s'.delivered == s.delivered && s'.made == s.made
               && var nd, nd' := s.nodes[n], s'.nodes[n];
                  && nd'.up && nd'.cursor.None? && nd'.upstream == nd.upstream && nd'.wire == rest && nd'.todo == []
                  && nd'.buffer.Valid() && nd'.buffer.len == 0
                  && nd'.served == nd.served + (if a.Forward? then [a.data] else [])
                  && nd'.st == (if a.Install? then Installed(nd.st, a.record) else nd.st)
  {
    hide Inv, MessageOf, Frame, SafeRun, After, Next, DrainTo, ItemOk, ActionsOf, Installed, UnpackPos;
    var nd, k := s.nodes[n], |Frame(MessageOf(item))|;
    FrameAhead(nd.wire, Frame(MessageOf(item)), rest);
    ReadsOne(log.parse, nd.buffer, item, k, 0);
    assert Frame(MessageOf(item))[..k] == Frame(MessageOf(item));
    assert Enabled(log, s, Read(n, k, 0)) && Safe(log, s, Read(n, k, 0));
    RunOne(log, s, Read(n, k, 0));
    SafeStep(log, s, Read(n, k, 0));
    OwnNode(log, s, Read(n, k, 0));
    SameDelivered(log, s, Read(n, k, 0));
    SameMade(log, s, Read(n, k, 0));
    var s1 := Next(log, s, Read(n, k, 0));
    assert s1.nodes[n].todo == [a] && [a][1..] == [];
    RunThen(log, s, [Read(n, k, 0)], Do(n));
    OwnNode(log, s1, Do(n));
    SameDelivered(log, s1, Do(n));
    SameMade(log, s1, Do(n));
    assert nd.served + [] == nd.served;
  }

  lemma FrameAhead(wire: bytes, frame: bytes, rest: bytes)
    requires wire == frame + rest
    ensures |frame| <= |wire| && wire[..|frame|] == frame && wire[|frame|..] == rest
  {
  }

  lemma SameMade(log: Log, s: System, step: Step)
    requires Enabled(log, s, step) && !step.Sync?
    ensures Next(log, s, step).made == s.made
  {
    hide UnpackPos, DrainTo, Installed, Synced, Restored, ItemOk, MessageOf, Frame, Acted;
  }

  /** What the installed checkpoint has made of the follower's state. */
  lemma InstalledState(st: State, c: Checkpoint)
    requires !st.exiting && st.open && |c.file| <= 494
    ensures var st' := Installed(st, Record(c));
            && st'.last == PosOf(c) && st'.eventIndex == c.index
            && st'.cache != [] && ReadBack(st'.cache) == c && UpToDate(st')
  {
    RoundTrip(c, []);
    assert Record(c) + [] == Record(c) && |Record(c)| >= 18;
    ReadRecord(c, WriteAt(st.cache, Record(c)));
    hide Record, UnpackPos, ReadBack;
  }

  /** The follower holds the checkpoint and does not run. */
  predicate Ready(s: System, n: NodeId, c: Checkpoint) {
    && n in s.nodes
    && var nd := s.nodes[n];
       && nd.up && nd.cursor.None? && nd.st.last == PosOf(c) && nd.st.eventIndex == c.index
       && nd.st.cache != [] && UpToDate(nd.st)
  }

  lemma LeaderGone(log: Log, s: System, m: NodeId, n: NodeId, c: Checkpoint)
    requires Inv(log, s) && m in s.nodes && s.nodes[m].up && m != n && Ready(s, n, c) && s.nodes[n].upstream == Some(m)
    ensures SafeRun(log, s, [Crash(m)])
    ensures var s' := After(log, s, [Crash(m)]);
            && Inv(log, s') && m in s'.nodes && !s'.nodes[m].up && s'.delivered == s.delivered
            && Ready(s', n, c) && s'.nodes[n].upstream.None? && s'.nodes[n].served == s.nodes[n].served
  {
    hide Inv, SafeRun, After, Next, UpToDate, PosOf;
    assert Enabled(log, s, Crash(m)) && Safe(log, s, Crash(m));
    RunOne(log, s, Crash(m));
    SafeStep(log, s, Crash(m));
    OthersStep(log, s, Crash(m), n);
    Fanned(log, s, Crash(m), n);
    SameDelivered(log, s, Crash(m));
    CrashStep(log, s, m);
  }

  lemma PromotedStep(log: Log, s: System, m: NodeId, n: NodeId, c: Checkpoint)
    requires Inv(log, s) && m in s.nodes && m != n && Ready(s, n, c) && s.nodes[n].upstream.None?
    requires c.file != [] && log.known(PosOf(c))
    ensures Enabled(log, s, Promote(n)) && Safe(log, s, Promote(n))
    ensures var s' := Next(log, s, Promote(n));
            && n in s'.nodes && m in s'.nodes && s'.nodes[m].up == s.nodes[m].up && s'.delivered == s.delivered
            && s'.nodes[n] == s.nodes[n].(cursor := Some(log.ord(PosOf(c))))
  {
    hide Inv, Next, UpToDate;
    assert Enabled(log, s, Promote(n)) && Safe(log, s, Promote(n));
    OwnNode(log, s, Promote(n));
    OthersStep(log, s, Promote(n), m);
    SameDelivered(log, s, Promote(n));
  }

  /** The leader is gone; the follower leads on from the checkpoint. */
  lemma FollowerLeads(log: Log, s: System, m: NodeId, n: NodeId, c: Checkpoint, json: bytes)
    requires Inv(log, s) && m in s.nodes && s.nodes[m].up && m != n && Ready(s, n, c) && s.nodes[n].upstream == Some(m)
    requires c.file != [] && log.known(PosOf(c)) && log.start <= log.ord(PosOf(c)) < log.limit
    requires c.index == log.base + log.ord(PosOf(c))
    requires Tells(log, json, log.ord(PosOf(c)), c.index + 1)
    ensures var steps := [Crash(m)] + [Promote(n)] + [Row(n, json)];
            && c.index + 1 < TWO_63
            && SafeRun(log, s, steps)
            && var s' := After(log, s, steps);
               && m in s'.nodes && !s'.nodes[m].up
               && n in s'.nodes && s'.nodes[n].cursor == Some(log.ord(PosOf(c)) + 1)
               && s'.nodes[n].served == s.nodes[n].served + [json]
               && s'.delivered == s.delivered + [Delivery(n, log.ord(PosOf(c)), c.index + 1)]
  {
    hide Inv, Tells, SafeRun, After, Next, UpToDate, PosOf, Wrap64;
    IndexInRange(log, s, log.ord(PosOf(c)));
    LeaderGone(log, s, m, n, c);
    var s1 := After(log, s, [Crash(m)]);
    PromotedStep(log, s1, m, n, c);
    RunThen(log, s, [Crash(m)], Promote(n));
    var s2 := Next(log, s1, Promote(n));
    assert Enabled(log, s2, Row(n, json)) && Safe(log, s2, Row(n, json));
    RunThen(log, s, [Crash(m)] + [Promote(n)], Row(n, json));
    OwnRow(log, s2, n, json);
    OwnNode(log, s2, Row(n, json));
    OthersStep(log, s2, Row(n, json), m);
  }

  lemma IndexInRange(log: Log, s: System, row: nat)
    requires Inv(log, s) && log.start <= row < log.limit
    ensures -TWO_63 <= log.base + row && log.base + row + 1 < TWO_63
    ensures Wrap64(log.base + row + 1) == log.base + row + 1
  {
  }

  /** A failover, from a fresh cluster on: a follower connects, the leader delivers a row and makes a checkpoint,
      the follower takes both, the leader crashes, the follower is promoted and delivers the next row. Every
      step is possible and safe. In the end the two rows have been delivered once each, by the one and the
      other, with successive numbers; the follower's subscribers have been sent both; and the follower goes on
      with the row after. */
  lemma FailoverHappens(log: Log, s: System, m: NodeId, n: NodeId, first: bytes, p: Position, second: bytes)
    requires Initial(log, s, m) && n in s.nodes && n != m && s.nodes[n].up && s.nodes[n].upstream.None?
    requires log.start + 1 < log.limit
    requires log.known(p) && log.ord(p) == log.start + 1 && 0 < |p.file| <= 494 && p.pos > 0
    requires Tells(log, first, log.start, log.base + log.start + 1) && |first| <= READ_SIZE - 22
    requires Tells(log, second, log.start + 1, log.base + log.start + 2)
    ensures var index := log.base + log.start + 1;
            && -TWO_63 <= index < TWO_63 - 1
            && var steps := [Connect(n, m)] + [Row(m, first)] + [Sync(m, p)] +
                            ([Read(n, 22 + |first|, 0)] + [Do(n)] + ([Read(n, 40 + |p.file|, 0)] + [Do(n)])) +
                            ([Crash(m)] + [Promote(n)] + [Row(n, second)]);
               && SafeRun(log, s, steps)
               && var s' := After(log, s, steps);
                  && s'.delivered == [Delivery(m, log.start, index), Delivery(n, log.start + 1, index + 1)]
                  && m in s'.nodes && !s'.nodes[m].up
                  && n in s'.nodes && s'.nodes[n].cursor == Some(log.start + 2)
                  && s'.nodes[n].served == [first, second]
  {
    hide Inv, Tells, MessageOf, Frame, SafeRun, After, Next, ItemOk, Initial, UnpackPos, Record;
    InitialInv(log, s, m);
    IndexInRange(log, s, log.start);
    IndexInRange(log, s, log.start + 1);
    var index := log.base + log.start + 1;
    LeaderSends(log, s, m, n, first, p);
    var one := [Connect(n, m)] + [Row(m, first)] + [Sync(m, p)];
    var s1 := After(log, s, one);
    RunKeepsInv(log, s, one);
    var c := Checkpoint(p.file, p.pos, index);
    FollowerTakes(log, s1, m, n, first, index, c);
    var two := [Read(n, 22 + |first|, 0)] + [Do(n)] + ([Read(n, 40 + |p.file|, 0)] + [Do(n)]);
    var s2 := After(log, s1, two);
    RunKeepsInv(log, s1, two);
    FollowerLeads(log, s2, m, n, c, second);
    RunInTwo(log, s, one, two);
    RunInTwo(log, s, one + two, [Crash(m)] + [Promote(n)] + [Row(n, second)]);
  }

  /** The follower takes the event and the checkpoint. */
  lemma FollowerTakes(log: Log, s: System, m: NodeId, n: NodeId, json: bytes, index: int64, c: Checkpoint)
    requires Inv(log, s) && c in s.made && c.index == index
    requires Leading(log, s, m, n, [Delivery(m, log.start, index)])
    requires UnderWay(s, n, Event(json, index), Pos(c))
    requires Tells(log, json, log.start, index) && |json| <= READ_SIZE - 22
    ensures var steps := [Read(n, 22 + |json|, 0)] + [Do(n)] + ([Read(n, 40 + |c.file|, 0)] + [Do(n)]);
            && SafeRun(log, s, steps)
            && var s' := After(log, s, steps);
               && Inv(log, s') && m in s'.nodes && s'.nodes[m].up && s'.delivered == s.delivered
               && Ready(s', n, c) && s'.nodes[n].upstream == Some(m) && s'.nodes[n].served == [json]
  {
    hide Inv, MessageOf, Frame, SafeRun, After, Next, ItemOk, UnpackPos, Record, Installed, ReadBack, PosOf, UpToDate;
    MadeItem(log, s, c);
    FrameSizesOf(json, index, c);
    TakesEvent(log, s, n, json, index, Frame(MessageOf(Pos(c))));
    var one := [Read(n, 22 + |json|, 0)] + [Do(n)];
    RunKeepsInv(log, s, one);
    var s1 := After(log, s, one);
    TakesCheckpoint(log, s1, n, c);
    var two := [Read(n, 40 + |c.file|, 0)] + [Do(n)];
    RunKeepsInv(log, s1, two);
    RunInTwo(log, s, one, two);
    OthersRun(log, s, one + two, m, n);
  }

  lemma MadeItem(log: Log, s: System, c: Checkpoint)
    requires Inv(log, s) && c in s.made
    ensures ItemOk(log.parse, Pos(c)) && 0 < |c.file| <= 494
  {
    assert Good(log, s.tip, c);
    GoodUnpacks(log, s.tip, c);
  }

  /** The follower does not run and has taken in all it has read. */
  predicate Listening(s: System, n: NodeId) {
    && n in s.nodes
    && var nd := s.nodes[n];
       && nd.up && nd.cursor.None? && nd.todo == [] && nd.buffer.Valid() && nd.buffer.len == 0
       && nd.upstream.Some? && nd.upstream != Some(n) && !nd.st.exiting && nd.st.open
  }

  lemma TakesEvent(log: Log, s: System, n: NodeId, json: bytes, index: int64, rest: bytes)
    requires Inv(log, s) && Listening(s, n) && s.nodes[n].wire == Frame(MessageOf(Event(json, index))) + rest
    requires s.nodes[n].served == [] && Tells(log, json, log.start, index) && |json| <= READ_SIZE - 22
    ensures var steps := [Read(n, 22 + |json|, 0)] + [Do(n)];
            && SafeRun(log, s, steps)
            && var s' := After(log, s, steps);
               && Listening(s', n) && s'.delivered == s.delivered && s'.made == s.made
               && s'.nodes[n].wire == rest && s'.nodes[n].upstream == s.nodes[n].upstream
               && s'.nodes[n].served == [json]
  {
    hide Inv, MessageOf, Frame, SafeRun, After, ItemOk;
    EventParses(log, json, log.start, index);
    FrameSizesOf(json, index, NO_CHECKPOINT);
    TakesOne(log, s, n, Event(json, index), rest, Forward(log.parse(json).name, json));
    assert [] + [json] == [json];
  }

  lemma EventParses(log: Log, json: bytes, row: nat, index: int)
    requires Tells(log, json, row, index)
    ensures log.parse(json).Table?
  {
  }

  lemma TakesCheckpoint(log: Log, s: System, n: NodeId, c: Checkpoint)
    requires Inv(log, s) && Listening(s, n) && s.nodes[n].wire == Frame(MessageOf(Pos(c)))
    requires ItemOk(log.parse, Pos(c)) && |c.file| <= 494
    ensures var steps := [Read(n, 40 + |c.file|, 0)] + [Do(n)];
            && SafeRun(log, s, steps)
            && var s' := After(log, s, steps);
               && Ready(s', n, c) && s'.delivered == s.delivered
               && s'.nodes[n].upstream == s.nodes[n].upstream && s'.nodes[n].served == s.nodes[n].served
  {
    hide Inv, MessageOf, Frame, SafeRun, After, ItemOk, Record, Installed, PosOf, UpToDate;
    FrameSizesOf([], 0, c);
    var rest := Frame(MessageOf(Pos(c)));
    assert rest + [] == rest;
    TakesOne(log, s, n, Pos(c), [], Install(Record(c)));
    InstalledState(s.nodes[n].st, c);
    assert s.nodes[n].served + [] == s.nodes[n].served;
  }

  lemma FrameSizesOf(json: bytes, index: int, c: Checkpoint)
    ensures |Frame(MessageOf(Event(json, index)))| == 22 + |json|
    ensures |Frame(MessageOf(Pos(c)))| == 40 + |c.file|
  {
  }

  /** The steps of one node leave another up. */
  lemma {:induction false} OthersRun(log: Log, s: System, steps: seq<Step>, m: NodeId, n: NodeId)
    requires SafeRun(log, s, steps) && m in s.nodes && m != n && forall i :: 0 <= i < |steps| ==> steps[i].n == n
    ensures m in After(log, s, steps).nodes && After(log, s, steps).nodes[m].up == s.nodes[m].up
    decreases |steps|
  {
    hide Enabled, Next, Safe;
    if steps != [] {
      OthersStep(log, s, steps[0], m);
      OthersRun(log, Next(log, s, steps[0]), steps[1..], m, n);
    }
  }
}
