/** Runs of the cluster: one numbering for all of them, and what a follower resumes at when it takes
    over. */
module Failover {
  import opened Wrappers
  import opened Bytes
  import opened PosRecord
  import opened CacheFile
  import opened BinlogHandler
  import opened AgentLink
  import opened AgentItems
  import opened Cluster

  predicate SafeRun(log: Log, s: System, steps: seq<Step>)
    decreases |steps|
  {
    steps == [] ||
    (Enabled(log, s, steps[0]) && Safe(log, s, steps[0]) && SafeRun(log, Next(log, s, steps[0]), steps[1..]))
  }

  function After(log: Log, s: System, steps: seq<Step>): System
    requires SafeRun(log, s, steps)
    decreases |steps|
  {
    if steps == [] then s else After(log, Next(log, s, steps[0]), steps[1..])
  }

  lemma RunFrom(log: Log, s: System, step: Step, rest: seq<Step>)
    requires Enabled(log, s, step) && Safe(log, s, step) && SafeRun(log, Next(log, s, step), rest)
    ensures SafeRun(log, s, [step] + rest) && After(log, s, [step] + rest) == After(log, Next(log, s, step), rest)
  {
    hide Enabled, Safe, Next;
    assert ([step] + rest)[1..] == rest;
  }

  lemma {:induction false} RunInTwo(log: Log, s: System, a: seq<Step>, b: seq<Step>)
    requires SafeRun(log, s, a) && SafeRun(log, After(log, s, a), b)
    ensures SafeRun(log, s, a + b) && After(log, s, a + b) == After(log, After(log, s, a), b)
    decreases |a|
  {
    hide Enabled, Safe, Next;
    if a == [] {
      assert a + b == b;
    } else {
      RunInTwo(log, Next(log, s, a[0]), a[1..], b);
      assert (a + b)[1..] == a[1..] + b;
    }
  }

  lemma RunOne(log: Log, s: System, step: Step)
    requires Enabled(log, s, step) && Safe(log, s, step)
    ensures SafeRun(log, s, [step]) && After(log, s, [step]) == Next(log, s, step)
  {
    hide Enabled, Safe, Next;
    RunFrom(log, s, step, []);
    assert [step] + [] == [step];
  }

  /** In a state of a run a safe step keeps the invariant. (`Promote` needs a checkpoint to be safe.) */
  lemma SafeStep(log: Log, s: System, step: Step)
    requires Inv(log, s) && Enabled(log, s, step) && Safe(log, s, step)
    ensures Inv(log, Next(log, s, step))
  {
    hide Inv, Next, ReadBack, UnpackPos, Enabled;
    StepKeepsInvIffSafe(log, s, step);
  }

  lemma {:induction false} RunKeepsInv(log: Log, s: System, steps: seq<Step>)
    requires Inv(log, s) && SafeRun(log, s, steps)
    ensures Inv(log, After(log, s, steps))
    decreases |steps|
  {
    hide Inv, Safe, Enabled, Next;
    if steps != [] {
      SafeStep(log, s, steps[0]);
      RunKeepsInv(log, Next(log, s, steps[0]), steps[1..]);
    }
  }

  lemma InitialInv(log: Log, s: System, leader: NodeId)
    requires Initial(log, s, leader)
    ensures Inv(log, s)
  {
    hide LinkOk, ReadBack, ActionOk;
    forall n | n in s.nodes
      ensures NodeOk(log, s.tip, s.made, s.nodes[n])
    {
      NothingCarried(log.parse, s.made, s.nodes[n]);
    }
  }

  /** Failover without gaps or renumbering: whatever nodes lead, crash and take over, and in whatever
      order, the rows delivered by all of them are a contiguous range of the log, and a row delivered
      more than once carries the same number every time. */
  lemma OneNumbering(log: Log, s: System, leader: NodeId, steps: seq<Step>)
    requires Initial(log, s, leader) && SafeRun(log, s, steps)
    ensures var s' := After(log, s, steps);
            && (forall i, j :: 0 <= i < |s'.delivered| && 0 <= j < |s'.delivered| ==>
                  (s'.delivered[i].row == s'.delivered[j].row <==> s'.delivered[i].index == s'.delivered[j].index))
            && (forall i :: 0 <= i < |s'.delivered| ==>
                  s'.delivered[i].index == s.nodes[leader].st.eventIndex + (s'.delivered[i].row - log.start) + 1)
            && (forall row :: log.start <= row < s'.tip <==> row >= 0 && Covered(s'.delivered, row))
  {
    hide NodeOk, Good;
    InitialInv(log, s, leader);
    RunKeepsInv(log, s, steps);
    var s' := After(log, s, steps);
    assert forall i :: 0 <= i < |s'.delivered| ==> Numbered(log, s'.tip, s'.delivered[i]);
  }

  // ---------- taking over ----------

  /** The node holds a checkpoint and has numbered nothing since. */
  predicate Settled(s: System, n: NodeId) {
    && n in s.nodes
    && s.nodes[n].cursor.None?
    && s.nodes[n].st.cache != []
    && (s.nodes[n].up ==> UpToDate(s.nodes[n].st))
  }

  /** The client of a node that does not run is about to install a checkpoint. */
  predicate AboutToInstall(log: Log, s: System, n: NodeId) {
    Enabled(log, s, Do(n)) && s.nodes[n].cursor.None? && s.nodes[n].todo[0].Install?
  }

  /** That settles the node, at that checkpoint. */
  lemma ReceiveSettles(log: Log, s: System, n: NodeId)
    requires Inv(log, s) && AboutToInstall(log, s, n)
    ensures Safe(log, s, Do(n))
    ensures var s' := Next(log, s, Do(n));
            && Settled(s', n) && s'.nodes[n].up
            && Record(ReadBack(s'.nodes[n].st.cache)) == s.nodes[n].todo[0].record
  {
    hide StateOk, LinkOk, ReadBack, Record, UnpackPos, Good;
    var nd := s.nodes[n];
    assert NodeOk(log, s.tip, s.made, nd);
    var c := FirstInstall(log, s.tip, s.made, nd);
    InstallState(log, s.tip, s.made, nd, c);
  }

  /** What a step of another node leaves as it is. */
  lemma OthersStep(log: Log, s: System, step: Step, n: NodeId)
    requires Enabled(log, s, step) && step.n != n && n in s.nodes
    ensures var nd, nd' := s.nodes[n], Next(log, s, step).nodes[n];
            && nd'.st == nd.st && nd'.up == nd.up && nd'.cursor == nd.cursor
            && nd'.buffer == nd.buffer && nd'.todo == nd.todo && nd'.served == nd.served
    ensures n in Next(log, s, step).nodes
  {
    hide UnpackPos, DrainTo, Installed, Synced, Restored, ItemOk, MessageOf;
  }

  /** What a row does to the node that numbers it, apart from its connection. */
  lemma OwnRow(log: Log, s: System, n: NodeId, json: bytes)
    requires Enabled(log, s, Row(n, json))
    ensures var s' := Next(log, s, Row(n, json));
            && s'.nodes.Keys == s.nodes.Keys
            && s'.nodes[n].up && s'.nodes[n].cursor == Some(s.nodes[n].cursor.value + 1)
            && s'.nodes[n].st == s.nodes[n].st.(eventIndex := Wrap64(s.nodes[n].st.eventIndex + 1))
            && s'.delivered == s.delivered + [Delivery(n, s.nodes[n].cursor.value, s'.nodes[n].st.eventIndex)]
  {
    hide ItemOk, MessageOf;
  }

  lemma NewConnection(log: Log, s: System, n: NodeId, m: NodeId)
    requires Enabled(log, s, Connect(n, m))
    ensures Next(log, s, Connect(n, m)) == s.(nodes := s.nodes[n := s.nodes[n].(upstream := Some(m), wire := [])])
  {
  }

  lemma CrashStep(log: Log, s: System, n: NodeId)
    requires Enabled(log, s, Crash(n))
    ensures var s' := Next(log, s, Crash(n));
            && n in s'.nodes && s'.nodes[n].st == s.nodes[n].st && !s'.nodes[n].up && s'.nodes[n].cursor.None?
  {
  }

  /** And with the process its connections end: what they have taken still arrives, and nothing more. */
  lemma CrashEndsConnections(log: Log, s: System, m: NodeId, n: NodeId)
    requires Enabled(log, s, Crash(m)) && n in s.nodes && n != m
    ensures var s' := Next(log, s, Crash(m));
            && n in s'.nodes && s'.nodes[n].upstream != Some(m)
            && s'.nodes[n] == (if s.nodes[n].upstream == Some(m) then s.nodes[n].(upstream := None) else s.nodes[n])
            && m in s'.nodes && s'.nodes[m].upstream.None? && s'.nodes[m].wire == []
  {
  }

  /** What the steps of a node that does not run leave of its checkpoint. */
  lemma OwnStep(log: Log, s: System, step: Step)
    requires Enabled(log, s, step) && s.nodes[step.n].cursor.None?
    requires !step.Promote? && !(step.Do? && s.nodes[step.n].todo[0].Install?)
    ensures var nd, nd' := s.nodes[step.n], Next(log, s, step).nodes[step.n];
            && nd'.cursor.None? && nd'.st.cache == nd.st.cache
            && (nd.up && nd'.up ==> nd'.st == nd.st)
            && (!nd.up && nd'.up ==> nd'.st.eventIndex == ReadBack(nd.st.cache).index)
    ensures step.n in Next(log, s, step).nodes
  {
    hide UnpackPos, DrainTo, Installed, Synced, ItemOk, MessageOf, ReadBack;
  }

  /** It stays settled, whatever safe steps it or the others take, crashes and restarts of its own
      included, until it is promoted. */
  lemma StaysSettled(log: Log, s: System, step: Step, n: NodeId)
    requires Inv(log, s) && Enabled(log, s, step) && Safe(log, s, step) && Settled(s, n)
    requires step != Promote(n)
    ensures Settled(Next(log, s, step), n)
  {
    if step.n != n {
      hide Enabled, Next, Safe, Inv, UpToDate;
      OthersStep(log, s, step, n);
    } else if step.Do? && s.nodes[n].todo[0].Install? {
      hide Inv, Next, Settled, ReadBack, Record, Safe;
      ReceiveSettles(log, s, n);
    } else {
      hide Inv, Next, Safe, Enabled, ReadBack;
      OwnStep(log, s, step);
    }
  }

  lemma {:induction false} StaysSettledRun(log: Log, s: System, steps: seq<Step>, n: NodeId)
    requires Inv(log, s) && SafeRun(log, s, steps) && Settled(s, n)
    requires Promote(n) !in steps
    ensures Settled(After(log, s, steps), n)
    decreases |steps|
  {
    hide Inv, Safe, Enabled, Next, Settled;
    if steps != [] {
      SafeStep(log, s, steps[0]);
      StaysSettled(log, s, steps[0], n);
      StaysSettledRun(log, Next(log, s, steps[0]), steps[1..], n);
    }
  }

  /** The node can be promoted, and then resumes exactly at this checkpoint, with its index. */
  predicate ResumesAt(log: Log, s: System, n: NodeId, c: Checkpoint) {
    && Enabled(log, s, Promote(n)) && Safe(log, s, Promote(n))
    && var nd' := Next(log, s, Promote(n)).nodes[n];
       nd'.cursor == Some(log.ord(PosOf(c))) && nd'.st.eventIndex == c.index
  }

  /** Promotion of a settled node is possible and safe, and resumes exactly at the persisted checkpoint,
      which some leader made, with the number that belongs to it. */
  lemma SettledResumes(log: Log, s: System, n: NodeId)
    requires Inv(log, s) && Settled(s, n) && s.nodes[n].up
    ensures var c := ReadBack(s.nodes[n].st.cache);
            ResumesAt(log, s, n, c) && c in s.made && Good(log, s.tip, c)
  {
    hide ReadBack, LinkOk, Covered, Numbered, ActionOk;
    assert NodeOk(log, s.tip, s.made, s.nodes[n]);
    assert Good(log, s.tip, ReadBack(s.nodes[n].st.cache));
  }

  /** Failover: after any safe run a follower installs a checkpoint; any safe run later in which it was
      not promoted (the leader may have crashed, and so may the follower), it can be promoted if it is
      up, and resumes at a checkpoint with the numbering of the rows delivered so far. */
  lemma Failover(log: Log, s: System, leader: NodeId, before: seq<Step>, n: NodeId, later: seq<Step>)
    requires Initial(log, s, leader) && SafeRun(log, s, before)
    requires var s1 := After(log, s, before);
             AboutToInstall(log, s1, n) && SafeRun(log, Next(log, s1, Do(n)), later)
    requires Promote(n) !in later
    ensures var s2 := After(log, Next(log, After(log, s, before), Do(n)), later);
            && n in s2.nodes
            && (s2.nodes[n].up ==>
                  exists c :: c in s2.made && Good(log, s2.tip, c) && ResumesAt(log, s2, n, c))
  {
    InitialInv(log, s, leader);
    RunKeepsInv(log, s, before);
    var s1 := After(log, s, before);
    ReceiveSettles(log, s1, n);
    hide Inv, Safe, Enabled, Next, ReadBack, Good, ResumesAt;
    SafeStep(log, s1, Do(n));
    var s1' := Next(log, s1, Do(n));
    StaysSettledRun(log, s1', later, n);
    RunKeepsInv(log, s1', later);
    var s2 := After(log, s1', later);
    if s2.nodes[n].up {
      SettledResumes(log, s2, n);
    }
  }

  /** After a crash: a safe restart makes the node resume exactly after the last checkpoint it
      persisted. */
  lemma CrashRestart(log: Log, s: System, n: NodeId, master: Position)
    requires Inv(log, s) && Enabled(log, s, Restart(n, master)) && Safe(log, s, Restart(n, master))
    requires s.nodes[n].st.cache != []
    ensures var s' := Next(log, s, Restart(n, master));
            Inv(log, s') && Settled(s', n) && ResumesAt(log, s', n, ReadBack(s.nodes[n].st.cache))
  {
    hide ReadBack, NodeOk, Good, Covered, Numbered, ResumesAt;
    SafeStep(log, s, Restart(n, master));
    var s' := Next(log, s, Restart(n, master));
    assert s'.nodes[n].st.cache == s.nodes[n].st.cache;
    assert NodeOk(log, s.tip, s.made, s.nodes[n]);
    NotRunning(log, s.tip, s.made, s.nodes[n]);
    SettledResumes(log, s', n);
  }

  lemma NotRunning(log: Log, tip: nat, made: set<Checkpoint>, nd: Node)
    requires NodeOk(log, tip, made, nd) && !nd.up
    ensures nd.cursor.None?
  {
  }

  lemma PersistedBehind(log: Log, s: System, n: NodeId)
    requires Inv(log, s) && n in s.nodes && s.nodes[n].cursor.Some? && s.nodes[n].st.cache != []
    ensures ReadBack(s.nodes[n].st.cache).index <= s.nodes[n].st.eventIndex
  {
    hide ReadBack, LinkOk, ActionOk, Covered, Numbered;
    assert NodeOk(log, s.tip, s.made, s.nodes[n]);
    assert Good(log, s.tip, ReadBack(s.nodes[n].st.cache));
  }

  /** The persisted index is never ahead of the numbering of a running node. */
  lemma PersistedNotAhead(log: Log, s: System, leader: NodeId, steps: seq<Step>, n: NodeId)
    requires Initial(log, s, leader) && SafeRun(log, s, steps)
    ensures var s' := After(log, s, steps);
            n in s'.nodes && s'.nodes[n].cursor.Some? && s'.nodes[n].st.cache != [] ==>
              ReadBack(s'.nodes[n].st.cache).index <= s'.nodes[n].st.eventIndex
  {
    hide Inv, ReadBack, SafeRun;
    InitialInv(log, s, leader);
    RunKeepsInv(log, s, steps);
    var s' := After(log, s, steps);
    if n in s'.nodes && s'.nodes[n].cursor.Some? && s'.nodes[n].st.cache != [] {
      PersistedBehind(log, s', n);
    }
  }
}
