/** What happens when a step is not safe: the next row the node delivers has a number that is not its own. */
module Renumbering {
  import opened Wrappers
  import opened Bytes
  import opened Streams
  import opened PosRecord
  import opened CacheFile
  import opened BinlogHandler
  import opened AgentCodec
  import opened AgentNode
  import opened AgentLink
  import opened AgentItems
  import opened Cluster
  import opened Failover

  /** A running node whose index is not the number of the rows before the next one. */
  predicate Wrong(log: Log, s: System, n: NodeId) {
    n in s.nodes && s.nodes[n].cursor.Some? && s.nodes[n].st.eventIndex != log.base + s.nodes[n].cursor.value
  }

  /** The next row it delivers is misnumbered, or lies outside the log. */
  lemma WrongRow(log: Log, s: System, n: NodeId, json: bytes)
    requires log.Valid() && Wrong(log, s, n) && Enabled(log, s, Row(n, json))
    ensures var s' := Next(log, s, Row(n, json));
            && s'.delivered
               == s.delivered + [Delivery(n, s.nodes[n].cursor.value, Wrap64(s.nodes[n].st.eventIndex + 1))]
            && forall tip :: !Numbered(log, tip, s'.delivered[|s.delivered|])
  {
    hide ItemOk, MessageOf, Broadcast;
  }

  /** Every unsafe promotion and every unsafe installation of a checkpoint makes a node run with a wrong
      index, and after every unsafe restart a promotion does, although that looks safe. */
  lemma UnsafeStepMisnumbers(log: Log, s: System, step: Step)
    requires Inv(log, s) && Enabled(log, s, step) && !Safe(log, s, step)
    requires step.Promote? ==> s.nodes[step.n].st.cache != []
    ensures var s' := Next(log, s, step);
            && (step.Promote? || step.Do? ==> Wrong(log, s', step.n))
            && (step.Restart? ==>
                  Enabled(log, s', Promote(step.n)) && Safe(log, s', Promote(step.n)) &&
                  Wrong(log, Next(log, s', Promote(step.n)), step.n))
            && (step.Promote? || step.Do? || step.Restart? || step.Connect?)
  {
    hide ReadBack, LinkOk, Covered, Numbered, ActionOk, UnpackPos, Record, Good;
    var n := step.n;
    var nd := s.nodes[n];
    assert NodeOk(log, s.tip, s.made, nd);
    if nd.st.cache != [] {
      GoodCached(log, s.tip, s.made, nd);
    }
    if step.Do? {
      hide StateOk;
      var c := FirstInstall(log, s.tip, s.made, nd);
      InstallState(log, s.tip, s.made, nd, c);
      CursorIn(log, s.tip, s.made, nd);
    }
  }

  lemma GoodCached(log: Log, tip: nat, made: set<Checkpoint>, nd: Node)
    requires StateOk(log, tip, made, nd) && nd.st.cache != []
    requires forall c :: c in made ==> Good(log, tip, c)
    ensures var c := ReadBack(nd.st.cache);
            && 0 < |c.file| && 0 < c.pos < TWO_32
            && c.index == log.base + log.ord(PosOf(c))
  {
    hide ReadBack, ActionOk;
    assert Good(log, tip, ReadBack(nd.st.cache));
  }

  lemma OwnStop(log: Log, s: System, n: NodeId)
    requires Enabled(log, s, Demote(n))
    ensures Next(log, s, Demote(n)) == s.(nodes := s.nodes[n := s.nodes[n].(cursor := None)])
  {
  }

  lemma OwnStart(log: Log, s: System, n: NodeId)
    requires Enabled(log, s, Promote(n))
    ensures Next(log, s, Promote(n))
         == s.(nodes := s.nodes[n := s.nodes[n].(cursor := Some(log.ord(s.nodes[n].st.last)))])
  {
  }

  /** The node, promoted, delivers this row again, under another number. */
  predicate Redelivers(log: Log, s: System, n: NodeId, json: bytes, d: Delivery) {
    Enabled(log, s, Promote(n)) &&
    var s1 := Next(log, s, Promote(n));
    Enabled(log, s1, Row(n, json)) &&
    var s2 := Next(log, s1, Row(n, json));
    && |s2.delivered| == |s.delivered| + 1
    && s2.delivered[|s.delivered|].row == d.row && s2.delivered[|s.delivered|].index != d.index
  }

  /** Why a restart in the process is not safe between checkpoints: the number is not taken back with
      the position, so a row delivered again gets a new one. */
  lemma StopAndStartRenumbers(log: Log, s: System, n: NodeId, json: bytes, again: bytes)
    requires Inv(log, s) && Enabled(log, s, Row(n, json))
    requires s.nodes[n].st.last.file != [] && log.known(s.nodes[n].st.last)
    requires s.nodes[n].cursor == Some(log.ord(s.nodes[n].st.last))
    requires Tells(log, again, s.nodes[n].cursor.value, Wrap64(Wrap64(s.nodes[n].st.eventIndex + 1) + 1))
    ensures var s1 := Next(log, s, Row(n, json));
            && |s1.delivered| == |s.delivered| + 1
            && Enabled(log, s1, Demote(n))
            && var s2 := Next(log, s1, Demote(n));
               && !Safe(log, s2, Promote(n))
               && Redelivers(log, s2, n, again, s1.delivered[|s.delivered|])
  {
    hide Inv, ReadBack, Tells, Wrap64, Next, Redelivers;
    CachedIndex(log, s, n);
    OwnRow(log, s, n, json);
    WrapMoves(s.nodes[n].st.eventIndex);
    var s1 := Next(log, s, Row(n, json));
    OwnStop(log, s1, n);
    RedeliversRow(log, Next(log, s1, Demote(n)), n, again, s1.delivered[|s.delivered|]);
  }

  lemma RedeliversRow(log: Log, s: System, n: NodeId, json: bytes, d: Delivery)
    requires Enabled(log, s, Promote(n)) && d.index == s.nodes[n].st.eventIndex && d.row == log.ord(s.nodes[n].st.last)
    requires d.row < log.limit && Tells(log, json, d.row, Wrap64(d.index + 1))
    ensures Redelivers(log, s, n, json, d)
  {
    hide Tells, Wrap64, Next;
    OwnStart(log, s, n);
    OwnRow(log, Next(log, s, Promote(n)), n, json);
    WrapMoves(d.index);
  }

  lemma WrapMoves(v: int64)
    ensures Wrap64(v + 1) != v
  {
  }

  lemma CachedIndex(log: Log, s: System, n: NodeId)
    requires Inv(log, s) && n in s.nodes && s.nodes[n].cursor == Some(log.ord(s.nodes[n].st.last))
    ensures s.nodes[n].st.cache != [] ==> ReadBack(s.nodes[n].st.cache).index == s.nodes[n].st.eventIndex
  {
    hide ReadBack, LinkOk, Covered, Numbered, ActionOk, Good;
    assert NodeOk(log, s.tip, s.made, s.nodes[n]);
    if s.nodes[n].st.cache != [] {
      GoodCached(log, s.tip, s.made, s.nodes[n]);
    }
  }

  /** A node that starts with an empty cache takes the master's position with the number 0, so it must
      not lead before it has received a checkpoint: it would keep the numbering only by accident. */
  lemma UnseededPromotion(log: Log, s: System, n: NodeId, master: Position)
    requires Inv(log, s) && Enabled(log, s, Restart(n, master)) && s.nodes[n].st.cache == []
    ensures var s' := Next(log, s, Restart(n, master));
            && Inv(log, s') && Enabled(log, s', Promote(n))
            && (Inv(log, Next(log, s', Promote(n))) <==>
                  log.start <= log.ord(master) <= s.tip && log.base + log.ord(master) == 0)
  {
    hide LinkOk, Good, Covered, Numbered, ActionOk;
    RestartKeepsInv(log, s, n, master);
    var s' := Next(log, s, Restart(n, master));
    var nd' := s'.nodes[n];
    assert NodeOk(log, s'.tip, s'.made, nd');
    var led := nd'.(cursor := Some(log.ord(master)));
    SameLink(log.parse, s'.made, nd', s'.made, led);
    NodeOnlyOk(log, s', n, led);
  }

  // ---------- a restart and its guard ----------

  /** The code's own guard: a restart is safe whenever the cached position is not ahead of the master's in
      the same file. */
  lemma RestartGuardSuffices(log: Log, s: System, n: NodeId, master: Position)
    requires Inv(log, s) && Enabled(log, s, Restart(n, master)) && s.nodes[n].st.cache != []
    requires var c := ReadBack(s.nodes[n].st.cache);
             !(c.file == master.file && c.pos > master.pos)
    ensures Safe(log, s, Restart(n, master))
  {
    hide ReadBack, LinkOk, Good, Covered, Numbered, ActionOk;
    assert NodeOk(log, s.tip, s.made, s.nodes[n]);
    GoodCached(log, s.tip, s.made, s.nodes[n]);
  }

  /** When the guard fires the node resumes at the master's position, with the persisted index; that is safe
      exactly if no row lies between that position and the persisted one. */
  lemma ClampedRestart(log: Log, s: System, n: NodeId, master: Position)
    requires Inv(log, s) && Enabled(log, s, Restart(n, master)) && s.nodes[n].st.cache != []
    requires var c := ReadBack(s.nodes[n].st.cache);
             c.file == master.file && c.pos > master.pos
    ensures var c := ReadBack(s.nodes[n].st.cache);
            var s' := Next(log, s, Restart(n, master));
            && n in s'.nodes && s'.nodes[n].st.last == master && s'.nodes[n].st.eventIndex == c.index
            && (Safe(log, s, Restart(n, master)) <==> log.ord(master) == log.ord(PosOf(c)))
            && Enabled(log, s', Promote(n))
            && n in Next(log, s', Promote(n)).nodes
            && Next(log, s', Promote(n)).nodes[n].cursor == Some(log.ord(master))
  {
    hide ReadBack, LinkOk, Good, Covered, Numbered, ActionOk;
    assert NodeOk(log, s.tip, s.made, s.nodes[n]);
    GoodCached(log, s.tip, s.made, s.nodes[n]);
  }

  // ---------- a connection that begins behind the end of another ----------

  /** The client of `n` has read `k` bytes of a checkpoint's frame when its connection broke. */
  predicate TornAt(s: System, n: NodeId, c: Checkpoint, k: nat) {
    && n in s.nodes && c in s.made
    && var nd := s.nodes[n];
       var frame := Frame(MessageOf(Pos(c)));
       && nd.up && nd.upstream.None? && nd.cursor.None? && nd.todo == []
       && Primed(nd.buffer) && 0 < k < |frame| && nd.buffer.Live() == frame[..k]
  }

  /** This is how it comes about: the connection breaks within the frame. */
  lemma CutTears(log: Log, s: System, n: NodeId, c: Checkpoint, k: nat)
    requires n in s.nodes && c in s.made && Good(log, s.tip, c) && ItemOk(log.parse, Pos(c))
    requires var nd := s.nodes[n];
             && nd.up && nd.cursor.None? && nd.todo == [] && Primed(nd.buffer) && nd.buffer.len == 0
             && nd.wire == Frame(MessageOf(Pos(c)))
    requires 0 < k < |Frame(MessageOf(Pos(c)))|
    ensures SafeRun(log, s, [Cut(n, k)] + [Read(n, k, 0)])
    ensures TornAt(After(log, s, [Cut(n, k)] + [Read(n, k, 0)]), n, c, k)
  {
    hide DrainTo, Primed, ItemOk, Record, Frame, MessageOf, Next;
    var frame := Frame(MessageOf(Pos(c)));
    FrameFitsRead(c);
    ReadsOne(log.parse, s.nodes[n].buffer, Pos(c), k, 0);
    CutStep(log, s, n, k);
    var s1 := Next(log, s, Cut(n, k));
    assert s1.nodes[n].wire[..k] == frame[..k];
    ReadStep(log, s1, n, k);
    RunOne(log, s1, Read(n, k, 0));
    RunFrom(log, s, Cut(n, k), [Read(n, k, 0)]);
  }

  lemma FrameFitsRead(c: Checkpoint)
    ensures |Frame(MessageOf(Pos(c)))| == 22 + |Record(c)| == 40 + |c.file|
  {
  }

  lemma CutStep(log: Log, s: System, n: NodeId, kept: nat)
    requires Enabled(log, s, Cut(n, kept))
    ensures Next(log, s, Cut(n, kept))
         == s.(nodes := s.nodes[n := s.nodes[n].(upstream := None, wire := s.nodes[n].wire[..kept])])
  {
  }

  lemma ReadStep(log: Log, s: System, n: NodeId, k: nat)
    requires Enabled(log, s, Read(n, k, 0))
    ensures var (buf, out) := DrainTo(log.parse, s.nodes[n].buffer.Append(s.nodes[n].wire[..k], 0));
            Next(log, s, Read(n, k, 0))
            == s.(nodes := s.nodes[n := s.nodes[n].(buffer := buf, wire := s.nodes[n].wire[k..], todo := out)])
  {
    hide DrainTo;
  }

  /** The node is connected again, and the new connection has brought enough to complete the frame; like
      every connection it begins with a header. */
  predicate TornAgain(log: Log, s: System, n: NodeId, c: Checkpoint, k: nat) {
    && n in s.nodes && 0 < |c.file| <= 494
    && var nd := s.nodes[n];
       var frame := Frame(MessageOf(Pos(c)));
       && nd.up && nd.cursor.None? && nd.todo == [] && !nd.st.exiting && nd.st.open
       && Primed(nd.buffer) && nd.buffer.Valid() && 22 <= k < |frame| && nd.buffer.Live() == frame[..k]
       && |frame| - k <= |nd.wire| && HEADER <= nd.wire
  }

  /** What stands in the place of the record. */
  function Spliced(c: Checkpoint, k: nat, wire: bytes): (r: bytes)
    requires 22 <= k < 40 + |c.file| <= k + |wire|
    ensures |r| == 18 + |c.file|
  {
    Record(c)[..k - 22] + wire[..40 + |c.file| - k]
  }

  /** The node is up, does not run, and its checkpoint code is in this state. */
  predicate Holding(s: System, n: NodeId, st: State) {
    n in s.nodes && s.nodes[n].up && s.nodes[n].cursor.None? && s.nodes[n].st == st
  }

  /** It is read and installed. */
  lemma TornInstalls(log: Log, s: System, n: NodeId, c: Checkpoint, k: nat)
    requires TornAgain(log, s, n, c, k)
    ensures |Frame(MessageOf(Pos(c)))| == 40 + |c.file|
    ensures var nd := s.nodes[n];
            var steps := [Read(n, 40 + |c.file| - k, 0)] + [Do(n)];
            SafeRun(log, s, steps) && Holding(After(log, s, steps), n, Installed(nd.st, Spliced(c, k, nd.wire)))
  {
    FrameFitsRead(c);
    hide DrainTo, Primed, Record, Frame, MessageOf, Next, Installed, UnpackPos;
    var nd := s.nodes[n];
    var need := 40 + |c.file| - k;
    SplicedCheckpoint(log.parse, nd.buffer, c, k, nd.wire[..need], 0);
    ReadStep(log, s, n, need);
    var s1 := Next(log, s, Read(n, need, 0));
    DoStep(log, s1, n, Spliced(c, k, nd.wire));
    RunOne(log, s1, Do(n));
    RunFrom(log, s, Read(n, need, 0), [Do(n)]);
  }

  lemma DoStep(log: Log, s: System, n: NodeId, r: bytes)
    requires Enabled(log, s, Do(n)) && s.nodes[n].todo == [Install(r)]
    ensures var s' := Next(log, s, Do(n));
            && n in s'.nodes && s'.nodes[n].st == Installed(s.nodes[n].st, r)
            && s'.nodes[n].up == s.nodes[n].up && s'.nodes[n].cursor == s.nodes[n].cursor
  {
    hide Installed, UnpackPos, Frame;
  }

  /** A frame cut within the record's length: the length that is read is the header's, and the record is no
      checkpoint. The index becomes 0, and the position is lost in memory and in the cache file. */
  lemma TornLength(c: Checkpoint, k: nat, wire: bytes, st: State)
    requires 22 <= k <= 23 && 0 < |c.file| <= 494 && 40 + |c.file| <= k + |wire| && HEADER <= wire
    requires !st.exiting && st.open
    ensures var st' := Installed(st, Spliced(c, k, wire));
            && st'.eventIndex == 0 && st'.last.file == []
            && st'.cache != [] && ReadBack(st'.cache) == NO_CHECKPOINT
  {
    hide LE, FromLE, Record;
    var r := Spliced(c, k, wire);
    LongLength(c, k, wire);
    var cache' := WriteAt(st.cache, r);
    var n := if |cache'| < MIN_READ then |cache'| else MIN_READ;
    var data := cache'[..n] + Zeros(MIN_READ - n);
    assert data[..2] == cache'[..2] == r[..2];
  }

  lemma LongLength(c: Checkpoint, k: nat, wire: bytes)
    requires 22 <= k <= 23 && 40 + |c.file| <= k + |wire| && HEADER <= wire
    ensures FromLE(Spliced(c, k, wire)[..2]) >= 65280
  {
    hide Record;
    var b := Spliced(c, k, wire)[..2];
    assert wire[..2] == HEADER[..2] && wire[0] == 255 && wire[1] == 255;
    assert b[1] == 255;
    assert FromLE(b) == b[0] + 256 * FromLE(b[1..]);
    assert FromLE(b[1..]) == b[1] + 256 * FromLE(b[2..]);
  }

  /** After it a crash, a restart and a promotion make the node lead from wherever the master is, with the
      number 0: its index is wrong unless that is the master's number. */
  lemma TornLengthRenumbers(log: Log, s: System, n: NodeId, c: Checkpoint, k: nat, master: Position)
    requires TornAgain(log, s, n, c, k) && k <= 23 && master.file != [] && log.known(master)
    ensures |Frame(MessageOf(Pos(c)))| == 40 + |c.file|
    ensures var steps := ([Read(n, 40 + |c.file| - k, 0)] + [Do(n)]) + [Crash(n)];
            && SafeRun(log, s, steps)
            && LeadsFromMaster(log, After(log, s, steps), n, master)
  {
    TornInstalls(log, s, n, c, k);
    TornLength(c, k, s.nodes[n].wire, s.nodes[n].st);
    hide Next, Installed, ReadBack, SafeRun, After, Primed, Frame, MessageOf;
    var read := [Read(n, 40 + |c.file| - k, 0)] + [Do(n)];
    var s1 := After(log, s, read);
    CrashStep(log, s1, n);
    RunOne(log, s1, Crash(n));
    RunInTwo(log, s, read, [Crash(n)]);
    NoCheckpointLeads(log, Next(log, s1, Crash(n)), n, master);
  }

  /** Restarted and promoted, the node runs from the master's position, and with a wrong index exactly if
      the number there is not 0. */
  predicate LeadsFromMaster(log: Log, s: System, n: NodeId, master: Position) {
    Enabled(log, s, Restart(n, master)) &&
    var s1 := Next(log, s, Restart(n, master));
    Enabled(log, s1, Promote(n)) &&
    var s2 := Next(log, s1, Promote(n));
    && n in s2.nodes && s2.nodes[n].cursor == Some(log.ord(master))
    && (Wrong(log, s2, n) <==> log.base + log.ord(master) != 0)
  }

  lemma NoCheckpointLeads(log: Log, s: System, n: NodeId, master: Position)
    requires n in s.nodes && !s.nodes[n].up && s.nodes[n].cursor.None? && ReadBack(s.nodes[n].st.cache) == NO_CHECKPOINT
    requires master.file != [] && log.known(master)
    ensures LeadsFromMaster(log, s, n, master)
  {
    hide ReadBack;
  }

  /** The names of binlog files have no byte 255. */
  ghost predicate PlainNames(log: Log) {
    forall p :: log.known(p) ==> 255 !in p.file
  }

  /** A frame cut within the file name: the name goes on with the header, so there is no such file, and no
      leader made the checkpoint. */
  lemma TornName(c: Checkpoint, k: nat, wire: bytes, st: State)
    requires 40 <= k < 40 + |c.file| <= k + |wire| && 0 < |c.file| <= 494 && HEADER <= wire
    requires 0 < c.pos < TWO_32 && !st.exiting && st.open
    ensures var st' := Installed(st, Spliced(c, k, wire));
            && 255 in st'.last.file
            && st'.cache != [] && ReadBack(st'.cache).file == st'.last.file && ReadBack(st'.cache).pos == c.pos
  {
    var c' := c.(file := c.file[..k - 40] + wire[..40 + |c.file| - k]);
    NameRecord(c, k, wire);
    assert c'.file[k - 40] == wire[0] == HEADER[0];
    RoundTrip(c', []);
    assert Record(c') + [] == Record(c');
    ReadRecord(c', WriteAt(st.cache, Record(c')));
    hide ReadBack, Record, UnpackPos, LE;
  }

  lemma NameRecord(c: Checkpoint, k: nat, wire: bytes)
    requires 40 <= k < 40 + |c.file| <= k + |wire|
    ensures Spliced(c, k, wire) == Record(c.(file := c.file[..k - 40] + wire[..40 + |c.file| - k]))
  {
    hide LE;
    assert Record(c)[..k - 22] == LE(2, 16 + |c.file|) + LE(8, c.pos) + LE(8, c.index) + c.file[..k - 40];
  }

  /** The node cannot take over, neither at once nor after a crash and a restart. */
  predicate CannotLead(log: Log, s: System, n: NodeId, master: Position) {
    && !Enabled(log, s, Promote(n))
    && Enabled(log, s, Crash(n))
    && var s1 := Next(log, s, Crash(n));
       Enabled(log, s1, Restart(n, master)) ==> !Enabled(log, Next(log, s1, Restart(n, master)), Promote(n))
  }

  lemma TornNameStrands(log: Log, s: System, n: NodeId, c: Checkpoint, k: nat, master: Position)
    requires TornAgain(log, s, n, c, k) && k >= 40 && 0 < c.pos < TWO_32 && PlainNames(log)
    ensures |Frame(MessageOf(Pos(c)))| == 40 + |c.file|
    ensures var steps := [Read(n, 40 + |c.file| - k, 0)] + [Do(n)];
            SafeRun(log, s, steps) && CannotLead(log, After(log, s, steps), n, master)
  {
    TornInstalls(log, s, n, c, k);
    TornName(c, k, s.nodes[n].wire, s.nodes[n].st);
    hide Installed, ReadBack, SafeRun, After, Primed, Frame, MessageOf, Next, CannotLead;
    StrandedNow(log, After(log, s, [Read(n, 40 + |c.file| - k, 0)] + [Do(n)]), n, master);
  }

  lemma StrandedNow(log: Log, s: System, n: NodeId, master: Position)
    requires n in s.nodes && s.nodes[n].up && 255 in s.nodes[n].st.last.file && PlainNames(log)
    requires var c := ReadBack(s.nodes[n].st.cache);
             255 in c.file && 0 < c.pos < TWO_32
    ensures CannotLead(log, s, n, master)
  {
    hide ReadBack, Next;
    CrashStep(log, s, n);
    var s1 := Next(log, s, Crash(n));
    if Enabled(log, s1, Restart(n, master)) {
      Stranded(log, s1, n, master);
    }
  }

  lemma Stranded(log: Log, s: System, n: NodeId, master: Position)
    requires Enabled(log, s, Restart(n, master)) && PlainNames(log)
    requires var c := ReadBack(s.nodes[n].st.cache);
             255 in c.file && 0 < c.pos < TWO_32
    ensures !Enabled(log, Next(log, s, Restart(n, master)), Promote(n))
  {
    hide ReadBack;
  }

  // ---------- and how it is reached ----------

  function Keepalives(m: NodeId, k: nat): seq<Step> {
    if k == 0 then [] else [Keepalive(m)] + Keepalives(m, k - 1)
  }

  function Ticks(k: nat): (r: bytes)
    ensures |r| == 17 * k
    ensures k > 0 ==> HEADER <= r
  {
    if k == 0 then [] else Frame(MessageOf(Tick)) + Ticks(k - 1)
  }

  lemma KeepaliveStep(log: Log, s: System, n: NodeId, m: NodeId)
    requires Enabled(log, s, Keepalive(m)) && n in s.nodes && n != m && s.nodes[n].upstream == Some(m)
    ensures var s' := Next(log, s, Keepalive(m));
            && n in s'.nodes && s'.nodes[n] == s.nodes[n].(wire := s.nodes[n].wire + Frame(MessageOf(Tick)))
            && m in s'.nodes && s'.nodes[m].up
  {
    hide Frame, MessageOf;
  }

  /** Keepalives alone bring as many bytes as one likes. */
  lemma {:induction false} KeepaliveRun(log: Log, s: System, n: NodeId, m: NodeId, k: nat)
    requires n in s.nodes && m in s.nodes && n != m && s.nodes[n].upstream == Some(m) && s.nodes[m].up
    ensures SafeRun(log, s, Keepalives(m, k))
    ensures var s' := After(log, s, Keepalives(m, k));
            n in s'.nodes && s'.nodes[n] == s.nodes[n].(wire := s.nodes[n].wire + Ticks(k))
    decreases k
  {
    hide Next, Frame, MessageOf;
    if k > 0 {
      KeepaliveStep(log, s, n, m);
      var s1 := Next(log, s, Keepalive(m));
      KeepaliveRun(log, s1, n, m, k - 1);
      RunFrom(log, s, Keepalive(m), Keepalives(m, k - 1));
      Regroup(s.nodes[n].wire, Frame(MessageOf(Tick)), Ticks(k - 1));
    } else {
      assert s.nodes[n].wire + [] == s.nodes[n].wire;
    }
  }

  /** Why a connection is not safe while something is left over from the last one: it is refused by the
      invariant's own test, and once it has brought enough, be it nothing but keepalives, the torn
      checkpoint is complete (`TornLengthRenumbers` and `TornNameStrands` say what becomes of it). */
  lemma TornConnects(log: Log, s: System, n: NodeId, m: NodeId, c: Checkpoint, k: nat, j: nat)
    requires Inv(log, s) && TornAt(s, n, c, k) && k >= 22 && n != m && Enabled(log, s, Connect(n, m))
    requires 17 * j >= 18 + |c.file|
    ensures !Safe(log, s, Connect(n, m))
    ensures var s1 := Next(log, s, Connect(n, m));
            SafeRun(log, s1, Keepalives(m, j)) && TornAgain(log, After(log, s1, Keepalives(m, j)), n, c, k)
  {
    hide Inv, Next, Primed, MessageOf, Frame, SafeRun, After, Ticks, Keepalives;
    TornFacts(log, s, n, c, k);
    NewConnection(log, s, n, m);
    var s1 := Next(log, s, Connect(n, m));
    KeepaliveRun(log, s1, n, m, j);
    assert [] + Ticks(j) == Ticks(j);
    assert 18 + |c.file| <= |Ticks(j)|;
  }

  lemma TornFacts(log: Log, s: System, n: NodeId, c: Checkpoint, k: nat)
    requires Inv(log, s) && TornAt(s, n, c, k)
    ensures 0 < |c.file| <= 494 && 0 < c.pos < TWO_32
    ensures !s.nodes[n].st.exiting && s.nodes[n].st.open
    ensures s.nodes[n].buffer.len == k && s.nodes[n].buffer.Valid()
    ensures |Frame(MessageOf(Pos(c)))| == 40 + |c.file|
  {
    hide Covered, Numbered, LinkOk, ActionOk, ReadBack, Record;
    assert Good(log, s.tip, c);
    assert NodeOk(log, s.tip, s.made, s.nodes[n]);
    FrameFitsRead(c);
  }

  /** The whole run, for a frame cut within the record's length: connected again to a node that sends nothing
      but keepalives, the follower installs what is no checkpoint, by steps each of which looks safe, and
      leads after its next crash with a wrong index, unless the master happens to be where the number
      is 0. */
  lemma TornConnectRenumbers(log: Log, s: System, n: NodeId, m: NodeId, c: Checkpoint, k: nat, j: nat, master: Position)
    requires Inv(log, s) && TornAt(s, n, c, k) && 22 <= k <= 23 && n != m && Enabled(log, s, Connect(n, m))
    requires 17 * j >= 18 + |c.file| && master.file != [] && log.known(master)
    ensures |Frame(MessageOf(Pos(c)))| == 40 + |c.file|
    ensures var s1 := Next(log, s, Connect(n, m));
            var steps := Keepalives(m, j) + (([Read(n, 40 + |c.file| - k, 0)] + [Do(n)]) + [Crash(n)]);
            && !Safe(log, s, Connect(n, m))
            && SafeRun(log, s1, steps) && LeadsFromMaster(log, After(log, s1, steps), n, master)
  {
    hide Inv, Next, TornAgain, SafeRun, After, LeadsFromMaster, MessageOf, Frame, Primed;
    TornFacts(log, s, n, c, k);
    TornConnects(log, s, n, m, c, k, j);
    var s1 := Next(log, s, Connect(n, m));
    var s2 := After(log, s1, Keepalives(m, j));
    TornLengthRenumbers(log, s2, n, c, k, master);
    RunInTwo(log, s1, Keepalives(m, j), ([Read(n, 40 + |c.file| - k, 0)] + [Do(n)]) + [Crash(n)]);
  }
}
