/** The steps that `Subscribers.NoRowLost` leaves out, and what they lose: a checkpoint passed on further than
    the rows sent with it, and a new connection to a leader further on. When the follower has installed the
    checkpoint, the rows it has jumped over are missing, and no promotion brings them back.
    (binlog/binlog_handler.go, agent/agent.go) */
module LostRows {
  import opened Wrappers
  import opened Bytes
  import opened PosRecord
  import opened CacheFile
  import opened BinlogHandler
  import opened ServiceUtil
  import opened AgentCodec
  import opened AgentNode
  import opened AgentLink
  import opened AgentItems
  import opened Cluster
  import opened Failover
  import opened Subscribers

  // ---------- a row jumped over is never sent ----------

  /** The subscribers have not been sent the row, and the node runs, and would resume, behind it. */
  predicate Ahead(log: Log, nd: Node, row: nat) {
    && !HasServed(log, nd.served, row)
    && nd.st.cache != [] && row < Kept(log, nd)
    && (nd.cursor.Some? ==> row < nd.cursor.value)
  }

  predicate IsAhead(log: Log, s: System, n: NodeId, row: nat) {
    n in s.nodes && Ahead(log, s.nodes[n], row)
  }

  /** No other node sends the row after all: neither its event, nor a checkpoint before it. */
  predicate Past(log: Log, s: System, step: Step, n: NodeId, row: nat) {
    step == Do(n) && n in s.nodes && s.nodes[n].todo != [] ==>
      match s.nodes[n].todo[0]
      case Forward(_, data) => log.rowOf(data) != row
      case Install(r) => UnpackPos(r).Some? ==> row < log.ord(PosOf(UnpackPos(r).value))
  }

  lemma NotServedMore(log: Log, served: seq<bytes>, json: bytes, row: nat)
    requires !HasServed(log, served, row) && log.rowOf(json) != row
    ensures !HasServed(log, served + [json], row)
  {
    forall i | 0 <= i < |served + [json]|
      ensures !(log.rowOf((served + [json])[i]) == row && NumberedText(log, (served + [json])[i]))
    {
      if i < |served| {
        assert (served + [json])[i] == served[i];
      }
    }
  }

  /** A node's own step, apart from what it may send to itself. */
  lemma OwnEffect(log: Log, s: System, step: Step)
    requires Enabled(log, s, step) && !step.Crash? && !step.Restart? && !step.Connect?
    ensures step.n in Next(log, s, step).nodes
    ensures Next(log, s, step).nodes[step.n].(wire := []) == NodeAfter(log, s.nodes[step.n], step).(wire := [])
  {
    hide UnpackPos, DrainTo, Installed, Synced, Restored, ItemOk, MessageOf, Frame;
  }

  lemma SyncedLast(st: State, p: Position)
    requires !st.exiting && st.open
    ensures Synced(st, p).last == p && Synced(st, p).cache != []
  {
    assert |Record(Checkpoint(p.file, p.pos, st.eventIndex))| >= 18;
  }

  lemma NodeStaysAhead(log: Log, nd: Node, step: Step, row: nat)
    requires Ahead(log, nd, row) && nd.up && !nd.st.exiting && nd.st.open
    requires !step.Crash? && !step.Restart? && !step.Connect?
    requires step.Row? ==> nd.cursor.Some? && log.rowOf(step.json) == nd.cursor.value
    requires step.Sync? ==> nd.cursor == Some(log.ord(step.p))
    requires step.Read? ==> nd.buffer.Valid() && step.k <= |nd.wire|
    requires step.Cut? ==> step.kept <= |nd.wire|
    requires step.Do? ==>
               nd.todo != [] &&
               match nd.todo[0]
               case Forward(_, data) => log.rowOf(data) != row
               case Install(r) => UnpackPos(r).Some? && row < log.ord(PosOf(UnpackPos(r).value))
    ensures Ahead(log, NodeAfter(log, nd, step), row)
  {
    hide HasServed, UnpackPos, DrainTo, Installed, Synced, ReadBack, Wrap64;
    match step {
      case Row(_, json) => NotServedMore(log, nd.served, json, row);
      case Sync(_, p) => SyncedLast(nd.st, p);
      case Do(_) =>
        if nd.todo[0].Forward? {
          NotServedMore(log, nd.served, nd.todo[0].data, row);
        } else {
          InstalledLast(nd.st, nd.todo[0].record);
        }
      case _ =>
    }
  }

  lemma SameAhead(log: Log, nd: Node, nd': Node, row: nat)
    requires nd'.st == nd.st && nd'.up == nd.up && nd'.cursor == nd.cursor && nd'.served == nd.served
    ensures Ahead(log, nd', row) <==> Ahead(log, nd, row)
  {
    hide HasServed, ReadBack;
  }

  lemma OwnStepStaysAhead(log: Log, s: System, step: Step, row: nat)
    requires Inv(log, s) && Enabled(log, s, step) && !step.Crash? && !step.Restart? && !step.Connect?
    requires Ahead(log, s.nodes[step.n], row) && Past(log, s, step, step.n, row)
    ensures IsAhead(log, Next(log, s, step), step.n, row)
  {
    hide Inv, Next, NodeAfter, Ahead, UnpackPos, Primed, ItemOk;
    StateOpen(log, s, step.n);
    InstallUnpacks(log, s, step);
    OwnEffect(log, s, step);
    NodeStaysAhead(log, s.nodes[step.n], step, row);
    SameAhead(log, NodeAfter(log, s.nodes[step.n], step), Next(log, s, step).nodes[step.n], row);
  }

  lemma CrashStaysAhead(log: Log, s: System, n: NodeId, row: nat)
    requires Inv(log, s) && Enabled(log, s, Crash(n)) && Ahead(log, s.nodes[n], row)
    ensures IsAhead(log, Next(log, s, Crash(n)), n, row)
  {
    hide Inv, Next, HasServed, ReadBack;
    KeptAgrees(log, s, n);
    CrashStep(log, s, n);
    CrashEmpties(log, s, n);
  }

  lemma RestartStaysAhead(log: Log, s: System, n: NodeId, master: Position, row: nat)
    requires Enabled(log, s, Restart(n, master)) && Safe(log, s, Restart(n, master)) && Ahead(log, s.nodes[n], row)
    ensures IsAhead(log, Next(log, s, Restart(n, master)), n, row)
  {
    hide Next, HasServed, ReadBack;
    RestartStep(log, s, n, master);
  }

  lemma StaysAhead(log: Log, s: System, step: Step, n: NodeId, row: nat)
    requires Inv(log, s) && Enabled(log, s, step) && Safe(log, s, step)
    requires IsAhead(log, s, n, row) && Past(log, s, step, n, row)
    ensures IsAhead(log, Next(log, s, step), n, row)
  {
    hide Inv, Next, Safe, Ahead, Past, Enabled;
    if step.n != n {
      OthersStep(log, s, step, n);
      SameAhead(log, s.nodes[n], Next(log, s, step).nodes[n], row);
    } else if step.Crash? {
      CrashStaysAhead(log, s, n, row);
    } else if step.Restart? {
      RestartStaysAhead(log, s, n, step.master, row);
    } else if step.Connect? {
      NewConnection(log, s, n, step.m);
      SameAhead(log, s.nodes[n], Next(log, s, step).nodes[n], row);
    } else {
      OwnStepStaysAhead(log, s, step, row);
    }
  }

  predicate PastRun(log: Log, s: System, steps: seq<Step>, n: NodeId, row: nat)
    requires SafeRun(log, s, steps)
    decreases |steps|
  {
    steps == [] ||
    (Past(log, s, steps[0], n, row) && PastRun(log, Next(log, s, steps[0]), steps[1..], n, row))
  }

  /** A row jumped over stays missing through promotions, rows, checkpoints, crashes and restarts, as long as
      no other node sends it after all. */
  lemma {:induction false} NeverServed(log: Log, s: System, steps: seq<Step>, n: NodeId, row: nat)
    requires Inv(log, s) && SafeRun(log, s, steps) && IsAhead(log, s, n, row) && PastRun(log, s, steps, n, row)
    ensures IsAhead(log, After(log, s, steps), n, row)
    ensures !HasServed(log, After(log, s, steps).nodes[n].served, row)
    decreases |steps|
  {
    hide Inv, Next, Safe, Enabled, Past, HasServed, ReadBack;
    if steps != [] {
      SafeStep(log, s, steps[0]);
      StaysAhead(log, s, steps[0], n, row);
      NeverServed(log, Next(log, s, steps[0]), steps[1..], n, row);
    }
  }

  // ---------- how a row is jumped over ----------

  /** What a position covers, if the subscribers have been sent everything up to row `far` and not that
      row. */
  lemma CoveredIff(log: Log, served: seq<bytes>, since: nat, far: nat, at: nat)
    requires since <= far && ServedFrom(log, served, since, far) && !HasServed(log, served, far)
    ensures ServedFrom(log, served, since, at) <==> at <= far
  {
    hide HasServed;
  }

  /** A follower with nothing to do and nothing under way, whose subscribers have been sent everything from
      `since` up to row `far`, and not that row. */
  predicate Waiting(log: Log, nd: Node, since: nat, far: nat) {
    && nd.up && nd.cursor.None? && nd.todo == [] && Primed(nd.buffer) && nd.buffer.len == 0
    && since <= far && ServedFrom(log, nd.served, since, far) && !HasServed(log, nd.served, far)
  }

  /** The follower has installed a checkpoint up to row `at`. It covers no more than its subscribers have been
      sent exactly if it does not lie behind `far`; and otherwise that row has been jumped over. */
  predicate Jumps(log: Log, s: System, n: NodeId, served: seq<bytes>, since: nat, far: nat, at: nat) {
    && n in s.nodes
    && var nd := s.nodes[n];
       && nd.served == served && nd.st.cache != [] && log.ord(nd.st.last) == at
       && (ServedFrom(log, nd.served, since, log.ord(nd.st.last)) <==> at <= far)
       && (at > far ==> Ahead(log, nd, far))
  }

  lemma ReadsCheckpoint(log: Log, s: System, n: NodeId, c: Checkpoint)
    requires n in s.nodes && ItemOk(log.parse, Pos(c)) && |c.file| <= 494
    requires var nd := s.nodes[n];
             && nd.up && nd.todo == [] && Primed(nd.buffer) && nd.buffer.len == 0
             && nd.wire == Frame(MessageOf(Pos(c)))
    ensures var k := |Frame(MessageOf(Pos(c)))|;
            && Enabled(log, s, Read(n, k, 0))
            && var s' := Next(log, s, Read(n, k, 0));
               && n in s'.nodes
               && s'.nodes[n].(buffer := s.nodes[n].buffer) == s.nodes[n].(wire := [], todo := [Install(Record(c))])
  {
    hide DrainTo, Primed, ItemOk, Record;
    var k := |Frame(MessageOf(Pos(c)))|;
    ReadsOne(log.parse, s.nodes[n].buffer, Pos(c), k, 0);
    assert s.nodes[n].wire[..k] == Frame(MessageOf(Pos(c)));
  }

  lemma InstallsCheckpoint(log: Log, s: System, n: NodeId, c: Checkpoint)
    requires n in s.nodes && s.nodes[n].up && s.nodes[n].cursor.None? && s.nodes[n].todo == [Install(Record(c))]
    requires !s.nodes[n].st.exiting && s.nodes[n].st.open && UnpackPos(Record(c)) == Some(c)
    ensures Enabled(log, s, Do(n)) && Safe(log, s, Do(n))
    ensures var s' := Next(log, s, Do(n));
            && n in s'.nodes && s'.nodes[n].up && s'.nodes[n].cursor.None?
            && s'.nodes[n].st.last == PosOf(c) && s'.nodes[n].st.cache != []
            && s'.nodes[n].served == s.nodes[n].served
  {
    InstalledLast(s.nodes[n].st, Record(c));
    hide Record, UnpackPos, Frame, Packet, Installed;
  }

  function CatchUp(n: NodeId, c: Checkpoint): seq<Step> {
    [Read(n, |Frame(MessageOf(Pos(c)))|, 0)] + [Do(n)]
  }

  /** Read and installed, the checkpoint takes the follower to its position, and nothing else does. */
  lemma CatchesUp(log: Log, s: System, n: NodeId, c: Checkpoint, since: nat, far: nat)
    requires Inv(log, s) && n in s.nodes && c in s.made
    requires Waiting(log, s.nodes[n], since, far) && s.nodes[n].wire == Frame(MessageOf(Pos(c)))
    ensures SafeRun(log, s, CatchUp(n, c))
    ensures Jumps(log, After(log, s, CatchUp(n, c)), n, s.nodes[n].served, since, far, log.ord(PosOf(c)))
  {
    assert Good(log, s.tip, c);
    GoodUnpacks(log, s.tip, c);
    hide Inv, Next, Record, UnpackPos, ItemOk, MessageOf, Frame, Primed;
    hide SafeRun, After, ServedFrom, HasServed, ReadBack;
    StateOpen(log, s, n);
    ReadsCheckpoint(log, s, n, c);
    var read := Read(n, |Frame(MessageOf(Pos(c)))|, 0);
    var s1 := Next(log, s, read);
    InstallsCheckpoint(log, s1, n, c);
    RunOne(log, s1, Do(n));
    RunFrom(log, s, read, [Do(n)]);
    CoveredIff(log, s.nodes[n].served, since, far, log.ord(PosOf(c)));
  }

  /** A follower of a follower: what its upstream passes on is the checkpoint alone, without the events it
      covers. */
  predicate Relayed(s: System, n: NodeId, m: NodeId, c: Checkpoint) {
    && n in s.nodes && m in s.nodes && n != m && c in s.made
    && s.nodes[n].upstream == Some(m) && s.nodes[n].wire == []
    && s.nodes[m].up && s.nodes[m].cursor.None? && s.nodes[m].todo != [] && s.nodes[m].todo[0] == Install(Record(c))
  }

  lemma RelayStep(log: Log, s: System, n: NodeId, m: NodeId, c: Checkpoint)
    requires Relayed(s, n, m, c) && UnpackPos(Record(c)) == Some(c)
    ensures Enabled(log, s, Do(m)) && Safe(log, s, Do(m))
    ensures var s' := Next(log, s, Do(m));
            n in s'.nodes && s'.nodes[n] == s.nodes[n].(wire := Frame(MessageOf(Pos(c)))) && s'.made == s.made
  {
    hide Record, UnpackPos, Frame, Packet, Installed;
    assert [] + Frame(MessageOf(Pos(c))) == Frame(MessageOf(Pos(c)));
  }

  /** A checkpoint passed on, by steps each of which is safe: the follower then covers no more than its
      subscribers have been sent exactly if the checkpoint lies within the rows sent, which is the test
      `Direct` makes. */
  lemma RelayedRunsAhead(log: Log, s: System, n: NodeId, m: NodeId, c: Checkpoint, since: nat, far: nat)
    requires Inv(log, s) && Relayed(s, n, m, c) && Waiting(log, s.nodes[n], since, far)
    ensures var steps := [Do(m)] + CatchUp(n, c);
            && SafeRun(log, s, steps)
            && Jumps(log, After(log, s, steps), n, s.nodes[n].served, since, far, log.ord(PosOf(c)))
  {
    assert Good(log, s.tip, c);
    GoodUnpacks(log, s.tip, c);
    hide Inv, Next, Record, UnpackPos, MessageOf, Frame, Primed, SafeRun, After, ServedFrom, HasServed, Jumps, CatchUp;
    RelayStep(log, s, n, m, c);
    SafeStep(log, s, Do(m));
    CatchesUp(log, Next(log, s, Do(m)), n, c, since, far);
    RunFrom(log, s, Do(m), CatchUp(n, c));
  }

  /** The checkpoint a leader makes at a position. */
  function MadeAt(s: System, m: NodeId, p: Position): Checkpoint
    requires m in s.nodes
  {
    Checkpoint(p.file, p.pos, s.nodes[m].st.eventIndex)
  }

  lemma SyncFans(log: Log, s: System, n: NodeId, m: NodeId, p: Position)
    requires Enabled(log, s, Sync(m, p)) && n in s.nodes && n != m
    requires s.nodes[n].upstream == Some(m) && s.nodes[n].wire == []
    ensures var s', c := Next(log, s, Sync(m, p)), MadeAt(s, m, p);
            && c in s'.made && PosOf(c) == p
            && n in s'.nodes && s'.nodes[n] == s.nodes[n].(wire := Frame(MessageOf(Pos(c))))
  {
    hide Record, Frame, MessageOf, WriteAt;
    assert [] + Frame(MessageOf(Pos(MadeAt(s, m, p)))) == Frame(MessageOf(Pos(MadeAt(s, m, p))));
  }

  /** A new connection to a running leader, and the next checkpoint that leader makes, by steps each of which
      is safe: the follower then covers no more than its subscribers have been sent exactly if the leader was
      not further on than they, which is the test `Direct` makes. */
  lemma ReconnectSkips(log: Log, s: System, n: NodeId, m: NodeId, p: Position, since: nat, far: nat)
    requires Inv(log, s) && n in s.nodes && Waiting(log, s.nodes[n], since, far)
    requires Enabled(log, s, Connect(n, m)) && n != m
    requires Enabled(log, Next(log, s, Connect(n, m)), Sync(m, p))
    ensures var steps := [Connect(n, m)] + ([Sync(m, p)] + CatchUp(n, MadeAt(s, m, p)));
            && s.nodes[m].cursor == Some(log.ord(p))
            && SafeRun(log, s, steps)
            && Jumps(log, After(log, s, steps), n, s.nodes[n].served, since, far, s.nodes[m].cursor.value)
  {
    hide Inv, Next, MessageOf, Frame, Primed, SafeRun, After, ServedFrom, HasServed, Jumps, CatchUp, PosOf;
    NewConnection(log, s, n, m);
    SafeStep(log, s, Connect(n, m));
    var s1 := Next(log, s, Connect(n, m));
    SyncFans(log, s1, n, m, p);
    SafeStep(log, s1, Sync(m, p));
    var c := MadeAt(s1, m, p);
    CatchesUp(log, Next(log, s1, Sync(m, p)), n, c, since, far);
    RunFrom(log, s1, Sync(m, p), CatchUp(n, c));
    RunFrom(log, s, Connect(n, m), [Sync(m, p)] + CatchUp(n, c));
  }
}
