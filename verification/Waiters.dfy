/** Request and response matching of the agent client (agent/client.go): every `Send` registers a
    waiter under a fresh message id, responses are handed to it, timeouts close it.

    One step is one lock-protected section or one channel operation; they may interleave freely. A
    waiter is known by its place in `waiters`, the order of creation, so that nothing about ids is
    built in. */
module Waiters {
  import opened Wrappers
  import opened Bytes
  import opened AgentCodec

  /** A waiter with its channel of capacity one. */
  datatype Waiter = Waiter(id: int64, time: int, data: Option<bytes>, closed: bool, closes: nat)

  /** The read loop: idle, or holding a waiter it looked up and the data for it. */
  datatype Reader = Idle | Found(h: nat, data: bytes)

  datatype State = State(
    msgID: int64,
    waiters: seq<Waiter>,
    unregistered: set<nat>,        // created by Send, not yet in the table
    table: map<int64, nat>,
    reader: Reader,
    received: seq<Message>,        // the frames the read loop has seen
    obtained: seq<(nat, bytes)>,   // what Wait has returned, and on which waiter
    leaving: seq<int64>,           // ids Wait is about to delete
    dropped: nat)                  // panics of the read loop, each of which drops its buffer

  datatype Step =
    | Create(now: int)        // Send: take an id and make the channel
    | Register(h: nat)        // Send: enter it into the table, and write the frame
    | Write                   // Write and keepalives take ids too
    | Response(m: Message)    // the read loop decodes a frame and looks its waiter up
    | Push                    // and sends the data on the channel
    | Take(h: nat)            // Wait receives from the channel
    | Delete(k: int64)        // and deletes the waiter
    | Sweep(now: int)         // the timeout loop

  const GLOBAL_TIMEOUT := 6000

  const INITIAL := State(1, [], {}, map[], Idle, [], [], [], 0)

  function Close(w: Waiter): Waiter {
    w.(closed := true, closes := w.closes + 1)
  }

  predicate TimedOut(st: State, k: int64, now: int) {
    && k in st.table && st.table[k] < |st.waiters|
    && now - st.waiters[st.table[k]].time >= GLOBAL_TIMEOUT
  }

  /** Closes the waiters of these ids and takes them out of the table, under the lock. */
  function Without(st: State, gone: set<int64>): State {
    st.(waiters := seq(|st.waiters|, h requires 0 <= h < |st.waiters| =>
          if (exists k :: k in gone && k in st.table && st.table[k] == h) then Close(st.waiters[h]) else st.waiters[h]),
        table := st.table - gone)
  }

  /** `delWaiter` */
  function Deleted(st: State, k: int64): State {
    Without(st, {k})
  }

  /** The timeout loop: every waiter too old goes, whatever order they are visited in. */
  function Swept(st: State, now: int): State {
    Without(st, set k | k in st.table && TimedOut(st, k, now))
  }

  /** What a step needs: the ids stay below 2^63, and a send on a full channel waits. */
  predicate Enabled(st: State, step: Step) {
    match step
    case Create(_) => st.msgID < TWO_63 - 1
    case Register(h) => h in st.unregistered && h < |st.waiters|
    case Write => st.msgID < TWO_63 - 1
    case Response(_) => st.reader == Idle
    case Push => st.reader.Found? && st.reader.h < |st.waiters| &&
                 (st.waiters[st.reader.h].closed || st.waiters[st.reader.h].data.None?)
    case Take(h) => h < |st.waiters| && st.waiters[h].data.Some? && |st.waiters[h].data.value| >= 8
    case Delete(k) => k in st.leaving
    case Sweep(_) => true
  }

  function Next(st: State, step: Step): State
    requires Enabled(st, step)
  {
    match step
    case Create(now) =>
      var id := Wrap64(st.msgID + 1);
      st.(msgID := id,
          waiters := st.waiters + [Waiter(id, now, None, false, 0)],
          unregistered := st.unregistered + {|st.waiters|})
    case Register(h) =>
      st.(table := st.table[st.waiters[h].id := h], unregistered := st.unregistered - {h})
    case Write => st.(msgID := Wrap64(st.msgID + 1))
    case Response(m) =>
      st.(received := st.received + [m],
          reader := if m.id > 1 && m.id in st.table then Found(st.table[m.id], LE(8, m.id) + m.content) else Idle)
    case Push =>
      var h := st.reader.h;
      if st.waiters[h].closed then st.(reader := Idle, dropped := st.dropped + 1)
      else st.(reader := Idle, waiters := st.waiters[h := st.waiters[h].(data := Some(st.reader.data))])
    case Take(h) =>
      var data := st.waiters[h].data.value;
      st.(waiters := st.waiters[h := st.waiters[h].(data := None)],
          obtained := st.obtained + [(h, data[8..])],
          leaving := st.leaving + [Wrap64(FromLE(data[..8]))])
    case Delete(k) => Deleted(st, k)
    case Sweep(now) => Swept(st, now)
  }

  /** Channel data for an id: the id, then the content of a received frame with that id. */
  predicate Carries(received: seq<Message>, id: int64, data: bytes) {
    && |data| >= 8
    && data[..8] == LE(8, id)
    && Message(id, data[8..]) in received
  }

  lemma CarriesMore(received: seq<Message>, more: seq<Message>, id: int64, data: bytes)
    requires received <= more && Carries(received, id, data)
    ensures Carries(more, id, data)
  {
  }

  /** A waiter is open exactly while it is registered or still to be registered, and carries only data
      of its own. */
  predicate WaiterOk(st: State, h: nat)
    requires h < |st.waiters|
  {
    var w := st.waiters[h];
    && 1 < w.id <= st.msgID
    && (!w.closed <==> h in st.unregistered || (w.id in st.table && st.table[w.id] == h))
    && w.closes == (if w.closed then 1 else 0)
    && (w.data.Some? ==> Carries(st.received, w.id, w.data.value))
  }

  predicate TableOk(st: State, k: int64)
    requires k in st.table
  {
    var h := st.table[k];
    h < |st.waiters| && st.waiters[h].id == k && h !in st.unregistered
  }

  predicate ObtainedOk(st: State, o: (nat, bytes)) {
    o.0 < |st.waiters| && Message(st.waiters[o.0].id, o.1) in st.received
  }

  predicate Inv(st: State) {
    && 1 <= st.msgID
    && (forall h :: 0 <= h < |st.waiters| ==> WaiterOk(st, h))
    && (forall g, h :: 0 <= g < h < |st.waiters| ==> st.waiters[g].id < st.waiters[h].id)
    && (forall h :: h in st.unregistered ==> h < |st.waiters|)
    && (forall k :: k in st.table ==> TableOk(st, k))
    && (st.reader.Found? ==>
          && st.reader.h < |st.waiters| && st.reader.h !in st.unregistered
          && Carries(st.received, st.waiters[st.reader.h].id, st.reader.data))
    && (forall o :: o in st.obtained ==> ObtainedOk(st, o))
  }

  lemma CreateKeepsInv(st: State, now: int)
    requires Inv(st) && Enabled(st, Create(now))
    ensures Inv(Next(st, Create(now)))
  {
    hide Carries;
    var st' := Next(st, Create(now));
    forall h | 0 <= h < |st'.waiters|
      ensures WaiterOk(st', h)
      ensures h < |st.waiters| ==> st'.waiters[h].id < st'.msgID
    {
      if h < |st.waiters| {
        assert WaiterOk(st, h);
      } else {
        assert forall k :: k in st.table ==> TableOk(st, k);
      }
    }
    forall k | k in st'.table
      ensures TableOk(st', k)
    {
      assert TableOk(st, k);
    }
    forall o | o in st'.obtained
      ensures ObtainedOk(st', o)
    {
      assert ObtainedOk(st, o);
    }
  }

  lemma RegisterKeepsInv(st: State, h: nat)
    requires Inv(st) && Enabled(st, Register(h))
    ensures Inv(Next(st, Register(h)))
  {
    hide Carries;
    var st' := Next(st, Register(h));
    forall g | 0 <= g < |st.waiters|
      ensures WaiterOk(st', g)
    {
      assert WaiterOk(st, g) && WaiterOk(st, h);
      SameIdSameWaiter(st, g, h);
    }
    forall k | k in st'.table
      ensures TableOk(st', k)
    {
      assert k != st.waiters[h].id ==> TableOk(st, k);
    }
    assert forall o :: o in st.obtained ==> ObtainedOk(st, o);
  }

  lemma SameIdSameWaiter(st: State, g: nat, h: nat)
    requires Inv(st) && g < |st.waiters| && h < |st.waiters|
    ensures st.waiters[g].id == st.waiters[h].id ==> g == h
  {
  }

  lemma WriteKeepsInv(st: State)
    requires Inv(st) && Enabled(st, Write)
    ensures Inv(Next(st, Write))
  {
    var st' := Next(st, Write);
    hide Carries;
    forall g | 0 <= g < |st.waiters|
      ensures WaiterOk(st', g)
    {
      assert WaiterOk(st, g);
    }
    assert forall k :: k in st.table ==> TableOk(st, k);
    assert forall o :: o in st.obtained ==> ObtainedOk(st, o);
  }

  lemma ResponseKeepsInv(st: State, m: Message)
    requires Inv(st) && Enabled(st, Response(m))
    ensures Inv(Next(st, Response(m)))
  {
    hide Carries;
    var st' := Next(st, Response(m));
    assert Carries(st'.received, m.id, LE(8, m.id) + m.content) by {
      FreshData(st.received, m);
    }
    forall g | 0 <= g < |st.waiters|
      ensures WaiterOk(st', g)
    {
      assert WaiterOk(st, g);
      if st.waiters[g].data.Some? {
        CarriesMore(st.received, st'.received, st.waiters[g].id, st.waiters[g].data.value);
      }
    }
    assert forall k :: k in st.table ==> TableOk(st, k);
    assert forall o :: o in st.obtained ==> ObtainedOk(st, o);
  }

  lemma FreshData(received: seq<Message>, m: Message)
    ensures Carries(received + [m], m.id, LE(8, m.id) + m.content)
  {
    var data := LE(8, m.id) + m.content;
    assert data[..8] == LE(8, m.id) && data[8..] == m.content;
    assert m == (received + [m])[|received|];
  }

  lemma PushKeepsInv(st: State)
    requires Inv(st) && Enabled(st, Push)
    ensures Inv(Next(st, Push))
  {
    hide Carries;
    var st' := Next(st, Push);
    forall g | 0 <= g < |st.waiters|
      ensures WaiterOk(st', g)
    {
      assert WaiterOk(st, g);
    }
    forall k | k in st'.table
      ensures TableOk(st', k)
    {
      assert TableOk(st, k);
    }
    assert forall o :: o in st.obtained ==> ObtainedOk(st, o);
  }

  lemma TakeKeepsInv(st: State, h: nat)
    requires Inv(st) && Enabled(st, Take(h))
    ensures Inv(Next(st, Take(h)))
  {
    hide FromLE, LE;
    var st' := Next(st, Take(h));
    assert WaiterOk(st, h);
    forall g | 0 <= g < |st.waiters|
      ensures WaiterOk(st', g)
    {
      assert WaiterOk(st, g);
    }
    forall k | k in st'.table
      ensures TableOk(st', k)
    {
      assert TableOk(st, k);
    }
    assert forall o :: o in st.obtained ==> ObtainedOk(st, o);
  }

  /** Closing waiters and taking them out of the table together keeps the invariant. */
  lemma WithoutKeepsInv(st: State, gone: set<int64>)
    requires Inv(st)
    ensures Inv(Without(st, gone))
  {
    hide Carries;
    var st' := Without(st, gone);
    forall h | 0 <= h < |st.waiters|
      ensures WaiterOk(st', h)
    {
      assert WaiterOk(st, h);
      assert forall k :: k in st.table ==> TableOk(st, k);
    }
    forall k | k in st'.table
      ensures TableOk(st', k)
    {
      assert TableOk(st, k);
    }
    assert forall o :: o in st.obtained ==> ObtainedOk(st, o);
  }

  lemma StepKeepsInv(st: State, step: Step)
    requires Inv(st) && Enabled(st, step)
    ensures Inv(Next(st, step))
  {
    hide Inv, Without;
    match step {
      case Create(now) => CreateKeepsInv(st, now);
      case Register(h) => RegisterKeepsInv(st, h);
      case Write => WriteKeepsInv(st);
      case Response(m) => ResponseKeepsInv(st, m);
      case Push => PushKeepsInv(st);
      case Take(h) => TakeKeepsInv(st, h);
      case Delete(k) => WithoutKeepsInv(st, {k});
      case Sweep(now) => WithoutKeepsInv(st, set k | k in st.table && TimedOut(st, k, now));
    }
  }

  /** Taking one more id out. */
  lemma WithoutOneMore(st: State, gone: set<int64>, k: int64)
    requires Inv(st) && k !in gone
    ensures Without(Without(st, gone), {k}) == Without(st, gone + {k})
  {
    hide Carries;
    var a, b := Without(Without(st, gone), {k}), Without(st, gone + {k});
    forall h | 0 <= h < |st.waiters|
      ensures a.waiters[h] == b.waiters[h]
    {
      if st.waiters[h].id in st.table && st.table[st.waiters[h].id] == h {
        assert (exists j :: j in gone && j in st.table && st.table[j] == h) <==> st.waiters[h].id in gone by {
          assert forall j :: j in st.table ==> TableOk(st, j);
        }
      } else {
        assert forall j :: j in st.table ==> TableOk(st, j);
      }
    }
    assert a.table == b.table;
  }

  /** The waiter is in the table under its id. */
  predicate Registered(st: State, h: nat) {
    h < |st.waiters| && st.waiters[h].id in st.table && st.table[st.waiters[h].id] == h
  }

  /** What taking ids out does to a single waiter. */
  lemma WithoutAt(st: State, gone: set<int64>, h: nat)
    requires Inv(st) && h < |st.waiters|
    ensures var st' := Without(st, gone);
            && |st'.waiters| == |st.waiters|
            && st'.waiters[h] == (if Registered(st, h) && st.waiters[h].id in gone then Close(st.waiters[h])
                                  else st.waiters[h])
            && (Registered(st', h) <==> Registered(st, h) && st.waiters[h].id !in gone)
  {
    hide Carries;
    assert WaiterOk(st, h);
    assert forall k :: k in st.table ==> TableOk(st, k);
  }

  /** A round of the timeout loop, for every waiter: one that is registered stays so, open and with what it
      holds, exactly if it is younger than six seconds; an older one is closed; any other stays as it is. */
  lemma SweepSparesTheYoung(st: State, now: int, h: nat)
    requires Inv(st) && h < |st.waiters|
    ensures var w, st' := st.waiters[h], Next(st, Sweep(now));
            && |st'.waiters| == |st.waiters|
            && (Registered(st, h) ==>
                  && (Registered(st', h) <==> now - w.time < 6000)
                  && (now - w.time < 6000 ==> !w.closed && st'.waiters[h] == w)
                  && (now - w.time >= 6000 ==> st'.waiters[h] == w.(closed := true, closes := 1)))
            && (!Registered(st, h) ==> !Registered(st', h) && st'.waiters[h] == w)
  {
    hide Carries;
    assert WaiterOk(st, h);
    var gone := set k | k in st.table && TimedOut(st, k, now);
    WithoutAt(st, gone, h);
  }

  /** `delWaiter`, for every waiter: the one with the id is closed, if it is registered, and all others are left
      alone. */
  lemma DeleteTakesOne(st: State, k: int64, h: nat)
    requires Inv(st) && Enabled(st, Delete(k)) && h < |st.waiters|
    ensures var w, st' := st.waiters[h], Next(st, Delete(k));
            && |st'.waiters| == |st.waiters|
            && (w.id != k || !Registered(st, h) ==> st'.waiters[h] == w)
            && (w.id == k && Registered(st, h) ==> st'.waiters[h] == w.(closed := true, closes := 1))
            && (Registered(st', h) <==> Registered(st, h) && w.id != k)
  {
    hide Carries;
    assert WaiterOk(st, h);
    WithoutAt(st, {k}, h);
  }

  /** The fields the lock protects, updated in place. */
  class WaiterTable {
    var waiters: seq<Waiter>
    var table: map<int64, nat>

    /** A state of the client with these fields. */
    ghost function In(rest: State): State
      reads this
    {
      rest.(waiters := waiters, table := table)
    }

    /** `delWaiter` */
    method DelWaiter(k: int64, ghost rest: State)
      requires Inv(In(rest))
      modifies this
      ensures In(rest) == Deleted(old(In(rest)), k)
    {
      if k in table {
        assert TableOk(In(rest), k);
        ghost var st := In(rest);
        var h := table[k];
        waiters := waiters[h := Close(waiters[h])];
        table := table - {k};
        assert waiters == Without(st, {k}).waiters;
      } else {
        assert waiters == Deleted(In(rest), k).waiters;
        assert table == table - {k};
      }
    }

    /** The timeout loop of `keep`: a Go map may be visited in any order and shrunk on the way. */
    method Sweep(now: int, ghost rest: State)
      requires Inv(In(rest))
      modifies this
      ensures In(rest) == Swept(old(In(rest)), now)
      ensures |waiters| == |old(waiters)|
      ensures forall h :: 0 <= h < |waiters| && Registered(old(In(rest)), h) ==>
                var w := old(waiters)[h];
                && (Registered(In(rest), h) <==> now - w.time < 6000)
                && waiters[h] == if now - w.time < 6000 then w else w.(closed := true, closes := 1)
    {
      hide Inv, Without;
      ghost var st := In(rest);
      ghost var gone: set<int64> := {};
      var toVisit := table.Keys;
      WithoutNone(st);
      while toVisit != {}
        invariant toVisit <= table.Keys && table.Keys == st.table.Keys - gone
        invariant In(rest) == Without(st, gone)
        invariant gone == set k | k in st.table && k !in toVisit && TimedOut(st, k, now)
        decreases toVisit
      {
        var k :| k in toVisit;
        WithoutKeepsInv(st, gone);
        WithoutKeeps(st, gone, k);
        if now - waiters[table[k]].time >= GLOBAL_TIMEOUT {
          WithoutOneMore(st, gone, k);
          DelWaiter(k, rest);
          WithoutTable(st, gone + {k});
          gone := gone + {k};
        }
        toVisit := toVisit - {k};
      }
      assert gone == set k | k in st.table && TimedOut(st, k, now);
      WithoutCount(st, gone);
      forall h | 0 <= h < |waiters| {
        SweepSparesTheYoung(st, now, h);
      }
    }
  }

  lemma WithoutCount(st: State, gone: set<int64>)
    ensures |Without(st, gone).waiters| == |st.waiters|
  {
  }

  lemma WithoutNone(st: State)
    ensures Without(st, {}) == st
  {
    assert Without(st, {}).waiters == st.waiters;
  }

  lemma WithoutTable(st: State, gone: set<int64>)
    ensures Without(st, gone).table.Keys == st.table.Keys - gone
  {
  }

  lemma WithoutKeeps(st: State, gone: set<int64>, k: int64)
    requires Inv(st) && k in st.table && k !in gone
    ensures var st' := Without(st, gone);
            && k in st'.table && st'.table[k] == st.table[k] < |st.waiters| == |st'.waiters|
            && st'.waiters[st.table[k]].time == st.waiters[st.table[k]].time
  {
    assert TableOk(st, k);
  }

  predicate IsRun(st: State, steps: seq<Step>)
    decreases |steps|
  {
    steps == [] || (Enabled(st, steps[0]) && IsRun(Next(st, steps[0]), steps[1..]))
  }

  function After(st: State, steps: seq<Step>): State
    requires IsRun(st, steps)
    decreases |steps|
  {
    if steps == [] then st else After(Next(st, steps[0]), steps[1..])
  }

  lemma {:induction false} RunKeepsInv(st: State, steps: seq<Step>)
    requires Inv(st) && IsRun(st, steps)
    ensures Inv(After(st, steps))
    decreases |steps|
  {
    hide Inv, Enabled, Next;
    if steps != [] {
      StepKeepsInv(st, steps[0]);
      RunKeepsInv(Next(st, steps[0]), steps[1..]);
    }
  }

  lemma InitialInv()
    ensures Inv(INITIAL)
  {
  }

  lemma StepKeepsTime(st: State, step: Step, h: nat)
    requires Enabled(st, step) && h < |st.waiters|
    ensures h < |Next(st, step).waiters|
    ensures Next(st, step).waiters[h].id == st.waiters[h].id && Next(st, step).waiters[h].time == st.waiters[h].time
  {
    hide LE, FromLE, Wrap64;
  }

  lemma {:induction false} RunKeepsTime(st: State, steps: seq<Step>, h: nat)
    requires IsRun(st, steps) && h < |st.waiters|
    ensures h < |After(st, steps).waiters|
    ensures After(st, steps).waiters[h].id == st.waiters[h].id
    ensures After(st, steps).waiters[h].time == st.waiters[h].time
    decreases |steps|
  {
    hide Enabled, Next;
    if steps != [] {
      StepKeepsTime(st, steps[0], h);
      RunKeepsTime(Next(st, steps[0]), steps[1..], h);
    }
  }

  /** A timeout counts from the call of `Send`: whatever has happened since, a round of the timeout loop leaves a
      registered waiter open, and with what it holds, exactly if less than six seconds have gone by. */
  lemma TimeoutCountsFromSend(before: seq<Step>, sent: int, later: seq<Step>, now: int)
    requires IsRun(INITIAL, before) && Enabled(After(INITIAL, before), Create(sent))
    requires IsRun(Next(After(INITIAL, before), Create(sent)), later)
    ensures var h := |After(INITIAL, before).waiters|;
            var st := After(Next(After(INITIAL, before), Create(sent)), later);
            var st' := Next(st, Sweep(now));
            && h < |st.waiters| == |st'.waiters|
            && (Registered(st, h) ==>
                  && (Registered(st', h) <==> now - sent < 6000)
                  && (!st'.waiters[h].closed <==> now - sent < 6000)
                  && (now - sent < 6000 ==> st'.waiters[h] == st.waiters[h]))
  {
    hide Inv, IsRun, After, Without;
    InitialInv();
    RunKeepsInv(INITIAL, before);
    var st0 := After(INITIAL, before);
    StepKeepsInv(st0, Create(sent));
    var st1 := Next(st0, Create(sent));
    RunKeepsInv(st1, later);
    RunKeepsTime(st1, later, |st0.waiters|);
    SweepSparesTheYoung(After(st1, later), now, |st0.waiters|);
  }

  function Taken(steps: seq<Step>): nat {
    if steps == [] then 0 else (if steps[0].Create? || steps[0].Write? then 1 else 0) + Taken(steps[1..])
  }

  /** Ids are handed out one by one, from 2 on. */
  lemma {:induction false} IdsCountUp(st: State, steps: seq<Step>)
    requires IsRun(st, steps)
    ensures After(st, steps).msgID == st.msgID + Taken(steps)
    decreases |steps|
  {
    hide Enabled, Next;
    if steps != [] {
      StepTakesId(st, steps[0]);
      IdsCountUp(Next(st, steps[0]), steps[1..]);
    }
  }

  lemma StepTakesId(st: State, step: Step)
    requires Enabled(st, step)
    ensures Next(st, step).msgID == st.msgID + if step.Create? || step.Write? then 1 else 0
    ensures step.Create? ==>
              Next(st, step).waiters == st.waiters + [Waiter(st.msgID + 1, step.now, None, false, 0)]
  {
    hide LE, FromLE;
  }

  /** The id of a `Send` counts those taken before it, by `Send`, `Write` and the keepalives. */
  lemma SendTakesNextId(before: seq<Step>, now: int)
    requires IsRun(INITIAL, before) && Enabled(After(INITIAL, before), Create(now))
    ensures var st := After(INITIAL, before);
            Taken(before) + 2 < TWO_63 &&
            Next(st, Create(now)).waiters == st.waiters + [Waiter(Taken(before) + 2, now, None, false, 0)]
  {
    hide IsRun, After, Next;
    IdsCountUp(INITIAL, before);
    StepTakesId(After(INITIAL, before), Create(now));
  }

  /** An id that has been passed is not taken later. */
  lemma StepPassesId(st: State, step: Step, id: int64)
    requires Inv(st) && Enabled(st, step) && id <= st.msgID
    requires forall h :: 0 <= h < |st.waiters| ==> st.waiters[h].id != id
    ensures id <= Next(st, step).msgID
    ensures forall h :: 0 <= h < |Next(st, step).waiters| ==> Next(st, step).waiters[h].id != id
  {
    hide Inv, LE, FromLE;
  }

  lemma {:induction false} RunPassesId(st: State, steps: seq<Step>, id: int64)
    requires Inv(st) && IsRun(st, steps) && id <= st.msgID
    requires forall h :: 0 <= h < |st.waiters| ==> st.waiters[h].id != id
    ensures forall h :: 0 <= h < |After(st, steps).waiters| ==> After(st, steps).waiters[h].id != id
    decreases |steps|
  {
    hide Inv, Enabled, Next;
    if steps != [] {
      StepPassesId(st, steps[0], id);
      StepKeepsInv(st, steps[0]);
      RunPassesId(Next(st, steps[0]), steps[1..], id);
    }
  }

  /** A plain `Write`, or a keepalive, takes an id of its own: no waiter has it or ever will, so the response to
      it reaches none. */
  lemma WriteHasOwnId(before: seq<Step>, later: seq<Step>, content: bytes)
    requires IsRun(INITIAL, before) && Enabled(After(INITIAL, before), Write)
    requires IsRun(Next(After(INITIAL, before), Write), later)
    ensures var id := After(INITIAL, before).msgID + 1;
            var st := After(Next(After(INITIAL, before), Write), later);
            && Next(After(INITIAL, before), Write).msgID == id
            && (forall h :: 0 <= h < |st.waiters| ==> st.waiters[h].id != id)
            && (st.reader == Idle ==> Next(st, Response(Message(id, content))).reader == Idle)
  {
    hide Inv, IsRun, After, LE, WaiterOk, TableOk;
    InitialInv();
    RunKeepsInv(INITIAL, before);
    var st0 := After(INITIAL, before);
    IdsPassed(st0);
    StepKeepsInv(st0, Write);
    var st1 := Next(st0, Write);
    RunPassesId(st1, later, st1.msgID);
    RunKeepsInv(st1, later);
    IdsPassed(After(st1, later));
  }

  lemma IdsPassed(st: State)
    requires Inv(st)
    ensures 1 <= st.msgID
    ensures forall h :: 0 <= h < |st.waiters| ==> st.waiters[h].id <= st.msgID
    ensures forall k :: k in st.table ==> exists h :: 0 <= h < |st.waiters| && st.waiters[h].id == k
  {
    hide Carries;
    forall h | 0 <= h < |st.waiters|
      ensures st.waiters[h].id <= st.msgID
    {
      assert WaiterOk(st, h);
    }
    forall k | k in st.table
      ensures exists h :: 0 <= h < |st.waiters| && st.waiters[h].id == k
    {
      assert TableOk(st, k);
    }
  }

  /** In every run: ids are pairwise distinct and greater than one; a registered waiter is in the table
      exactly while its channel is open; no channel is closed twice; and what `Wait` returns is the
      content of a received frame that carries the waiter's own id. */
  lemma WaitersInEveryRun(steps: seq<Step>)
    requires IsRun(INITIAL, steps)
    ensures var st := After(INITIAL, steps);
            && (forall h :: 0 <= h < |st.waiters| ==> st.waiters[h].id > 1)
            && (forall g, h :: 0 <= g < h < |st.waiters| ==> st.waiters[g].id != st.waiters[h].id)
            && (forall h :: 0 <= h < |st.waiters| && h !in st.unregistered ==>
                  (st.waiters[h].id in st.table <==> !st.waiters[h].closed))
            && (forall h :: 0 <= h < |st.waiters| ==> st.waiters[h].closes <= 1)
            && (forall i :: 0 <= i < |st.obtained| ==>
                  && st.obtained[i].0 < |st.waiters|
                  && Message(st.waiters[st.obtained[i].0].id, st.obtained[i].1) in st.received)
  {
    RunKeepsInv(INITIAL, steps);
    var st := After(INITIAL, steps);
    forall h | 0 <= h < |st.waiters|
      ensures st.waiters[h].id > 1 && st.waiters[h].closes <= 1
      ensures h !in st.unregistered ==> (st.waiters[h].id in st.table <==> !st.waiters[h].closed)
    {
      assert WaiterOk(st, h);
      if st.waiters[h].id in st.table {
        assert TableOk(st, st.waiters[h].id);
        SameIdSameWaiter(st, st.table[st.waiters[h].id], h);
      }
    }
    forall i | 0 <= i < |st.obtained|
      ensures ObtainedOk(st, st.obtained[i])
    {
      assert st.obtained[i] in st.obtained;
    }
  }

  /** The id `Wait` deletes after it has received is its own. */
  lemma WaitDeletesItself(st: State, h: nat)
    requires Inv(st) && Enabled(st, Take(h))
    ensures Next(st, Take(h)).leaving == st.leaving + [st.waiters[h].id]
  {
    assert WaiterOk(st, h);
    Int64RoundTrip(st.waiters[h].id);
  }

  lemma OpenIsRegistered(st: State, h: nat)
    requires Inv(st) && h < |st.waiters| && h !in st.unregistered
    ensures !st.waiters[h].closed <==> st.waiters[h].id in st.table
  {
    hide Carries;
    assert WaiterOk(st, h);
    if st.waiters[h].id in st.table {
      assert TableOk(st, st.waiters[h].id);
      SameIdSameWaiter(st, st.table[st.waiters[h].id], h);
    }
  }

  /** In every reachable state in which the read loop is about to send on the channel it looked up: the
      data reaches the waiter exactly if the waiter is still registered, and otherwise the loop panics
      and loses what else was in its buffer. */
  lemma PushReachesIffRegistered(steps: seq<Step>)
    requires IsRun(INITIAL, steps) && Enabled(After(INITIAL, steps), Push)
    ensures var st := After(INITIAL, steps);
            var w := st.waiters[st.reader.h];
            var st' := Next(st, Push);
            && (st'.dropped == st.dropped <==> w.id in st.table)
            && (w.id in st.table ==> st'.waiters == st.waiters[st.reader.h := w.(data := Some(st.reader.data))])
            && (w.id !in st.table ==> st'.waiters == st.waiters && st'.dropped == st.dropped + 1)
  {
    RunKeepsInv(INITIAL, steps);
    var st := After(INITIAL, steps);
    OpenIsRegistered(st, st.reader.h);
  }

  /** A response whose waiter is registered, and still is when the loop sends, reaches it. */
  lemma ResponseReachesWaiter(st: State, h: nat, content: bytes)
    requires Inv(st) && h < |st.waiters| && !st.waiters[h].closed && h !in st.unregistered
    requires st.reader == Idle && st.waiters[h].data.None?
    ensures var m := Message(st.waiters[h].id, content);
            var st1 := Next(st, Response(m));
            && Enabled(st1, Push)
            && Next(st1, Push).waiters[h].data == Some(LE(8, m.id) + content)
            && Next(st1, Push).dropped == st.dropped
  {
    assert WaiterOk(st, h);
  }

  /** One way to lose the registration in between: the timeout loop. */
  lemma TimeoutInBetweenPanics(st: State, h: nat, content: bytes, now: int)
    requires Inv(st) && h < |st.waiters| && !st.waiters[h].closed && h !in st.unregistered
    requires st.reader == Idle && now - st.waiters[h].time >= GLOBAL_TIMEOUT
    ensures var st1 := Next(st, Response(Message(st.waiters[h].id, content)));
            var st2 := Next(st1, Sweep(now));
            && Enabled(st2, Push)
            && Next(st2, Push).dropped == st.dropped + 1
            && Next(st2, Push).waiters[h].data == st.waiters[h].data
  {
    assert WaiterOk(st, h);
    var st1 := Next(st, Response(Message(st.waiters[h].id, content)));
    assert TimedOut(st1, st.waiters[h].id, now);
  }

  /** The other way: a second response with the same id, while `Wait` has the first but has not yet
      deleted its waiter. */
  lemma DuplicateResponsePanics(st: State, h: nat, content: bytes)
    requires Inv(st) && h < |st.waiters| && !st.waiters[h].closed && h !in st.unregistered
    requires st.reader == Idle && st.waiters[h].data.None?
    ensures var m := Message(st.waiters[h].id, content);
            var st1 := Next(st, Response(m));
            Enabled(st1, Push) &&
            var st2 := Next(st1, Push);
            Enabled(st2, Take(h)) &&
            var st3 := Next(st2, Take(h));
            Enabled(st3, Response(m)) &&
            var st4 := Next(st3, Response(m));
            Enabled(st4, Delete(m.id)) &&
            var st5 := Next(st4, Delete(m.id));
            Enabled(st5, Push) &&
            var st6 := Next(st5, Push);
            && st6.obtained == st.obtained + [(h, content)]
            && st6.dropped == st.dropped + 1
  {
    hide LE, FromLE, Carries;
    var m := Message(st.waiters[h].id, content);
    var data := LE(8, m.id) + content;
    assert WaiterOk(st, h);
    hide Inv, WaiterOk;
    Int64RoundTrip(m.id);
    assert data[..8] == LE(8, m.id) && data[8..] == content;
    var st4 := Next(Next(Next(Next(st, Response(m)), Push), Take(h)), Response(m));
    assert st4.reader == Found(h, data) && st4.leaving == st.leaving + [m.id];
    assert Deleted(st4, m.id).waiters[h].closed by {
      assert st4.table[m.id] == h;
    }
  }
}
