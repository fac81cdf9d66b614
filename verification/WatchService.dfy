/** Watching a Consul service (consul/watch_service.go): two successive snapshots are turned into add,
    delete and status events. */
module WatchService {

  /** A service entry of a snapshot: its id, its address with the port, the aggregated status of its
      checks, and whether it is tagged as the leader. */
  datatype Entry = Entry(id: string, addr: string, status: string, leader: bool)

  datatype Kind = StatusChange | Delete | Add

  /** What the callback is told about a member. */
  datatype Event = Event(kind: Kind, id: string, addr: string, online: bool, leader: bool)

  predicate Online(e: Entry) {
    e.status == "passing"
  }

  predicate HasId(es: seq<Entry>, id: string) {
    exists i :: 0 <= i < |es| && es[i].id == id
  }

  predicate UniqueIds(es: seq<Entry>) {
    forall i, j :: 0 <= i < j < |es| ==> es[i].id != es[j].id
  }

  /** The entries of `a` that are not in `b`, in order. */
  function Missing(a: seq<Entry>, b: seq<Entry>): seq<Entry> {
    if a == [] then []
    else
      var n := |a| - 1;
      Missing(a[..n], b) + if HasId(b, a[n].id) then [] else [a[n]]
  }

  /** The first entry of `b` with the id of `e` and another status. */
  function FirstChange(e: Entry, b: seq<Entry>): seq<Entry> {
    if b == [] then []
    else if e.id == b[0].id && e.status != b[0].status then [b[0]]
    else FirstChange(e, b[1..])
  }

  function Changed(a: seq<Entry>, b: seq<Entry>): seq<Entry> {
    if a == [] then []
    else
      var n := |a| - 1;
      Changed(a[..n], b) + FirstChange(a[n], b)
  }

  function EventOf(kind: Kind, e: Entry): Event {
    Event(kind, e.id, e.addr, Online(e), e.leader)
  }

  function EventsOf(kind: Kind, es: seq<Entry>): (r: seq<Event>)
    ensures |r| == |es|
  {
    seq(|es|, i requires 0 <= i < |es| => EventOf(kind, es[i]))
  }

  /** The events of one round of `Watch`, from the snapshot `a` to the snapshot `b`. */
  function RoundEvents(a: seq<Entry>, b: seq<Entry>): seq<Event> {
    EventsOf(Add, Missing(b, a)) + EventsOf(Delete, Missing(a, b)) + EventsOf(StatusChange, Changed(a, b))
  }

  /** `getDelete` */
  method GetDelete(a: seq<Entry>, b: seq<Entry>) returns (d: seq<Entry>)
    ensures d == Missing(a, b)
  {
    d := [];
    for i := 0 to |a|
      invariant d == Missing(a[..i], b)
    {
      assert a[..i + 1][..i] == a[..i];
      var found := false;
      for j := 0 to |b|
        invariant !found && forall k :: 0 <= k < j ==> a[i].id != b[k].id
      {
        if a[i].id == b[j].id {
          found := true;
          break;
        }
      }
      if !found {
        d := d + [a[i]];
      }
    }
    assert a[..|a|] == a;
  }

  /** `getChange` */
  method GetChange(a: seq<Entry>, b: seq<Entry>) returns (d: seq<Entry>)
    ensures d == Changed(a, b)
  {
    d := [];
    for i := 0 to |a|
      invariant d == Changed(a[..i], b)
    {
      assert a[..i + 1][..i] == a[..i];
      ghost var before := d;
      var j := 0;
      while j < |b|
        invariant j <= |b| && d == before
        invariant FirstChange(a[i], b) == FirstChange(a[i], b[j..])
      {
        if a[i].id == b[j].id && a[i].status != b[j].status {
          d := d + [b[j]];
          break;
        }
        j := j + 1;
      }
      assert d == before + FirstChange(a[i], b);
    }
    assert a[..|a|] == a;
  }

  class Watcher {
    var addrs: seq<Entry>
    var installed: bool       // addrs is not nil
    var li: nat
    var fired: seq<Event>     // the calls of the callback

    constructor ()
      ensures !installed && fired == []
    {
      addrs, installed, li, fired := [], false, 0, [];
    }

    method Fire(kind: Kind, es: seq<Entry>)
      modifies this`fired
      ensures fired == old(fired) + EventsOf(kind, es)
    {
      for i := 0 to |es|
        invariant fired == old(fired) + EventsOf(kind, es[..i])
      {
        fired := fired + [EventOf(kind, es[i])];
        assert EventsOf(kind, es[..i + 1]) == EventsOf(kind, es[..i]) + [EventOf(kind, es[i])];
      }
      assert es[..|es|] == es;
    }

    /** `dialAdd` */
    method DialAdd(answer: seq<Entry>)
      modifies this`fired
      ensures fired == old(fired) + EventsOf(Add, Missing(answer, addrs))
    {
      var added := GetDelete(answer, addrs);
      Fire(Add, added);
    }

    /** `dialDelete` */
    method DialDelete(answer: seq<Entry>)
      modifies this`fired
      ensures fired == old(fired) + EventsOf(Delete, Missing(addrs, answer))
    {
      var deleted := GetDelete(addrs, answer);
      Fire(Delete, deleted);
    }

    /** `dialChange` */
    method DialChange(answer: seq<Entry>)
      modifies this`fired
      ensures fired == old(fired) + EventsOf(StatusChange, Changed(addrs, answer))
    {
      var changed := GetChange(addrs, answer);
      Fire(StatusChange, changed);
    }

    /** The body of `Watch` for an answer of Consul: the first is installed silently. */
    method Round(answer: seq<Entry>, index: nat)
      modifies this
      ensures installed && addrs == answer && li == index
      ensures fired == old(fired) + if old(installed) then RoundEvents(old(addrs), answer) else []
    {
      hide EventsOf, Missing, Changed;
      if installed {
        DialAdd(answer);
        DialDelete(answer);
        DialChange(answer);
        assert fired == old(fired) + RoundEvents(addrs, answer);
      }
      addrs, installed, li := answer, true, index;
    }
  }

  // ---------- what the callback is told ----------

  lemma InEvents(kind: Kind, es: seq<Entry>, e: Event)
    ensures e in EventsOf(kind, es) <==>
              exists x :: x in es && e == Event(kind, x.id, x.addr, x.status == "passing", x.leader)
  {
    if e in EventsOf(kind, es) {
      var i :| 0 <= i < |es| && EventsOf(kind, es)[i] == e;
      assert es[i] in es;
    }
    if x :| x in es && e == Event(kind, x.id, x.addr, x.status == "passing", x.leader) {
      var i :| 0 <= i < |es| && es[i] == x;
      assert EventsOf(kind, es)[i] == e;
    }
  }

  predicate TellsNew(a: seq<Entry>, b: seq<Entry>, e: Event) {
    exists y :: y in b && !HasId(a, y.id) && e == Event(Add, y.id, y.addr, y.status == "passing", y.leader)
  }

  predicate TellsGone(a: seq<Entry>, b: seq<Entry>, e: Event) {
    exists x :: x in a && !HasId(b, x.id) && e == Event(Delete, x.id, x.addr, x.status == "passing", x.leader)
  }

  predicate TellsChanged(a: seq<Entry>, b: seq<Entry>, e: Event) {
    exists x, y :: x in a && y in b && x.id == y.id && x.status != y.status &&
                   e == Event(StatusChange, y.id, y.addr, y.status == "passing", y.leader)
  }

  /** A round tells of every service that is new, of every one that has gone, as it was last seen, and of every
      one whose status has changed, as it is now, and of nothing else. */
  lemma RoundTells(a: seq<Entry>, b: seq<Entry>, e: Event)
    requires UniqueIds(a) && UniqueIds(b)
    ensures e in RoundEvents(a, b) <==> TellsNew(a, b, e) || TellsGone(a, b, e) || TellsChanged(a, b, e)
  {
    hide Missing, Changed, HasId, UniqueIds, EventsOf;
    MissingEntries(b, a);
    MissingEntries(a, b);
    ChangedEntries(a, b);
    InEvents(Add, Missing(b, a), e);
    InEvents(Delete, Missing(a, b), e);
    InEvents(StatusChange, Changed(a, b), e);
  }

  // ---------- a listener that keeps a table ----------

  /** What a listener keeps of a service. */
  datatype Member = Member(online: bool, addr: string, leader: bool)

  type Table = map<string, Member>

  function Heard(t: Table, e: Event): Table {
    if e.kind == Delete then t - {e.id} else t[e.id := Member(e.online, e.addr, e.leader)]
  }

  function HeardAll(t: Table, es: seq<Event>): Table {
    if es == [] then t else Heard(HeardAll(t, es[..|es| - 1]), es[|es| - 1])
  }

  lemma {:induction false} HeardInTwo(t: Table, a: seq<Event>, b: seq<Event>)
    ensures HeardAll(t, a + b) == HeardAll(HeardAll(t, a), b)
  {
    if b == [] {
      assert a + b == a;
    } else {
      HeardInTwo(t, a, b[..|b| - 1]);
      assert (a + b)[..|a + b| - 1] == a + b[..|b| - 1];
    }
  }

  /** The table has the services of the snapshot, and knows which of them are online: those whose checks are
      all passing. */
  ghost predicate Knows(t: Table, es: seq<Entry>) {
    && (forall id :: id in t <==> HasId(es, id))
    && (forall e :: e in es ==> e.id in t && (t[e.id].online <==> e.status == "passing"))
  }

  /** And it knows their addresses, and which is tagged as the leader. */
  ghost predicate Agrees(t: Table, es: seq<Entry>) {
    && Knows(t, es)
    && (forall e :: e in es ==> e.id in t && t[e.id] == Member(e.status == "passing", e.addr, e.leader))
  }

  /** No service changes its address or its leader tag and keeps its status. */
  ghost predicate NothingUntold(a: seq<Entry>, b: seq<Entry>) {
    forall x, y :: x in a && y in b && x.id == y.id && x.status == y.status ==>
      x.addr == y.addr && x.leader == y.leader
  }

  lemma HasIdGrows(es: seq<Entry>, id: string)
    requires es != []
    ensures var n := |es| - 1;
            HasId(es, id) <==> HasId(es[..n], id) || es[n].id == id
  {
    var n := |es| - 1;
    assert forall i :: 0 <= i < n ==> es[i] == es[..n][i];
  }

  /** Add or status events, seen by one service. */
  lemma {:induction false} HearSet(t: Table, kind: Kind, es: seq<Entry>, id: string)
    requires kind != Delete && UniqueIds(es)
    ensures var t' := HeardAll(t, EventsOf(kind, es));
            && (forall e :: e in es && e.id == id ==>
                  id in t' && t'[id] == Member(e.status == "passing", e.addr, e.leader))
            && (!HasId(es, id) ==> (id in t' <==> id in t) && (id in t ==> t'[id] == t[id]))
  {
    if es != [] {
      hide HasId, EventsOf, HeardAll;
      var n := |es| - 1;
      assert UniqueIds(es[..n]);
      HearSet(t, kind, es[..n], id);
      HasIdGrows(es, id);
      LastIsNew(es);
      HearLast(t, kind, es);
      assert es == es[..n] + [es[n]];
    } else {
      assert EventsOf(kind, es) == [];
    }
  }

  lemma HearLast(t: Table, kind: Kind, es: seq<Entry>)
    requires kind != Delete && es != []
    ensures var e := es[|es| - 1];
            HeardAll(t, EventsOf(kind, es))
            == HeardAll(t, EventsOf(kind, es[..|es| - 1]))[e.id := Member(e.status == "passing", e.addr, e.leader)]
  {
    assert EventsOf(kind, es)[..|es| - 1] == EventsOf(kind, es[..|es| - 1]);
  }

  lemma LastIsNew(es: seq<Entry>)
    requires es != [] && UniqueIds(es)
    ensures forall e :: e in es[..|es| - 1] ==> e.id != es[|es| - 1].id
  {
  }

  /** Delete events, seen by one service. */
  lemma {:induction false} HearDelete(t: Table, es: seq<Entry>, id: string)
    ensures var t' := HeardAll(t, EventsOf(Delete, es));
            (id in t' <==> id in t && !HasId(es, id)) && (id in t' ==> t'[id] == t[id])
  {
    if es != [] {
      hide HasId;
      var n := |es| - 1;
      HearDelete(t, es[..n], id);
      HasIdGrows(es, id);
      assert EventsOf(Delete, es)[..n] == EventsOf(Delete, es[..n]);
    }
  }

  lemma {:induction false} MissingEntries(a: seq<Entry>, b: seq<Entry>)
    ensures forall e :: e in Missing(a, b) <==> e in a && !HasId(b, e.id)
  {
    hide HasId;
    if a != [] {
      var n := |a| - 1;
      MissingEntries(a[..n], b);
      assert a == a[..n] + [a[n]];
    }
  }

  lemma {:induction false} MissingUnique(a: seq<Entry>, b: seq<Entry>)
    requires UniqueIds(a)
    ensures UniqueIds(Missing(a, b))
  {
    if a != [] {
      hide HasId;
      var n := |a| - 1;
      assert UniqueIds(a[..n]);
      MissingUnique(a[..n], b);
      MissingEntries(a[..n], b);
      forall e | e in Missing(a[..n], b)
        ensures e.id != a[n].id
      {
        assert e in a[..n];
      }
    }
  }

  lemma {:induction false} FirstChangeIs(e: Entry, b: seq<Entry>)
    requires UniqueIds(b)
    ensures |FirstChange(e, b)| <= 1
    ensures forall x :: x in FirstChange(e, b) <==> x in b && x.id == e.id && x.status != e.status
  {
    if b != [] {
      assert UniqueIds(b[1..]);
      FirstChangeIs(e, b[1..]);
      assert forall x :: x in b <==> x == b[0] || x in b[1..];
    }
  }

  lemma {:induction false} ChangedEntries(a: seq<Entry>, b: seq<Entry>)
    requires UniqueIds(a) && UniqueIds(b)
    ensures forall x :: x in Changed(a, b) <==> x in b && exists e :: e in a && x.id == e.id && x.status != e.status
    ensures UniqueIds(Changed(a, b))
  {
    if a != [] {
      var n := |a| - 1;
      assert UniqueIds(a[..n]);
      ChangedEntries(a[..n], b);
      FirstChangeIs(a[n], b);
      assert forall e :: e in a <==> e in a[..n] || e == a[n];
      forall x | x in Changed(a[..n], b)
        ensures x.id != a[n].id
      {
        var e :| e in a[..n] && x.id == e.id && x.status != e.status;
      }
    }
  }

  function Ids(es: seq<Entry>): set<string> {
    set i | 0 <= i < |es| :: es[i].id
  }

  lemma InIds(es: seq<Entry>, id: string)
    ensures id in Ids(es) <==> HasId(es, id)
    ensures HasId(es, id) <==> exists e :: e in es && e.id == id
  {
    if e :| e in es && e.id == id {
      var i :| 0 <= i < |es| && es[i] == e;
    }
  }

  /** Every id occurs with one entry only. */
  lemma OneEntry(es: seq<Entry>, x: Entry, y: Entry)
    requires UniqueIds(es) && x in es && y in es && x.id == y.id
    ensures x == y
  {
    var i :| 0 <= i < |es| && es[i] == x;
    var j :| 0 <= j < |es| && es[j] == y;
  }

  /** One round, for one service: it is gone, or it is new or has changed and is as in the answer, or the
      listener has heard nothing of it. */
  lemma RoundForOne(t: Table, a: seq<Entry>, b: seq<Entry>, id: string)
    requires UniqueIds(a) && UniqueIds(b) && (id in t <==> HasId(a, id))
    ensures var t' := HeardAll(t, RoundEvents(a, b));
            && (id in t' <==> HasId(b, id))
            && (forall y :: y in b && y.id == id ==>
                  && ((!HasId(a, id) || exists x :: x in a && x.id == id && x.status != y.status) ==>
                        id in t' && t'[id] == Member(y.status == "passing", y.addr, y.leader))
                  && ((exists x :: x in a && x.id == id && x.status == y.status) ==>
                        id in t && id in t' && t'[id] == t[id]))
  {
    hide HeardAll, Missing, Changed, HasId, Ids, UniqueIds;
    var added, gone, changed := Missing(b, a), Missing(a, b), Changed(a, b);
    MissingEntries(b, a);
    MissingEntries(a, b);
    MissingUnique(b, a);
    ChangedEntries(a, b);
    InIds(a, id);
    InIds(b, id);
    InIds(added, id);
    InIds(gone, id);
    InIds(changed, id);
    HeardInTwo(t, EventsOf(Add, added) + EventsOf(Delete, gone), EventsOf(StatusChange, changed));
    HeardInTwo(t, EventsOf(Add, added), EventsOf(Delete, gone));
    HearSet(t, Add, added, id);
    var t1 := HeardAll(t, EventsOf(Add, added));
    HearDelete(t1, gone, id);
    HearSet(HeardAll(t1, EventsOf(Delete, gone)), StatusChange, changed, id);
    forall y, x | y in b && y.id == id && x in a && x.id == id && x.status == y.status
      ensures !HasId(changed, id)
    {
      forall z, w | z in b && z.id == id && w in a && w.id == id
        ensures z.status == w.status
      {
        OneEntry(b, y, z);
        OneEntry(a, x, w);
      }
    }
  }

  /** One round: a listener that knows the services of the old snapshot and which are online knows those of the
      new one after the events. And if it also knows addresses and leader tags, it still does exactly if
      neither has changed without the status. */
  lemma RoundReconstructs(t: Table, a: seq<Entry>, b: seq<Entry>)
    requires UniqueIds(a) && UniqueIds(b) && Knows(t, a)
    ensures Knows(HeardAll(t, RoundEvents(a, b)), b)
    ensures Agrees(t, a) ==> (Agrees(HeardAll(t, RoundEvents(a, b)), b) <==> NothingUntold(a, b))
  {
    hide HeardAll, RoundEvents, UniqueIds, HasId;
    var t' := HeardAll(t, RoundEvents(a, b));
    forall id
      ensures id in t' <==> HasId(b, id)
    {
      RoundForOne(t, a, b, id);
    }
    forall y | y in b
      ensures y.id in t' && (t'[y.id].online <==> y.status == "passing")
      ensures Agrees(t, a) && NothingUntold(a, b) ==> t'[y.id] == Member(y.status == "passing", y.addr, y.leader)
    {
      RoundForOne(t, a, b, y.id);
      InIds(a, y.id);
    }
    if Agrees(t, a) && !NothingUntold(a, b) {
      var x, y :| x in a && y in b && x.id == y.id && x.status == y.status &&
        !(x.addr == y.addr && x.leader == y.leader);
      RoundForOne(t, a, b, y.id);
    }
  }

  /** The events of a whole run of answers. */
  function RunEvents(answers: seq<seq<Entry>>): seq<Event> {
    if |answers| < 2 then []
    else
      var n := |answers| - 1;
      RunEvents(answers[..n]) + RoundEvents(answers[n - 1], answers[n])
  }

  /** Over any run of snapshots, a listener that starts with the silently installed first one and folds the
      events always knows exactly the current snapshot's services and which are online; and their addresses and
      leader tags, too, if none has changed without the status. */
  lemma {:induction false} EventsReconstructSnapshots(t: Table, answers: seq<seq<Entry>>)
    requires answers != [] && forall i :: 0 <= i < |answers| ==> UniqueIds(answers[i])
    requires Knows(t, answers[0])
    ensures Knows(HeardAll(t, RunEvents(answers)), answers[|answers| - 1])
    ensures Agrees(t, answers[0]) && (forall i :: 0 < i < |answers| ==> NothingUntold(answers[i - 1], answers[i])) ==>
              Agrees(HeardAll(t, RunEvents(answers)), answers[|answers| - 1])
  {
    if |answers| >= 2 {
      hide UniqueIds, Knows, Agrees, NothingUntold, RoundEvents;
      var n := |answers| - 1;
      EventsReconstructSnapshots(t, answers[..n]);
      HeardInTwo(t, RunEvents(answers[..n]), RoundEvents(answers[n - 1], answers[n]));
      KnowsIfAgrees(HeardAll(t, RunEvents(answers[..n])), answers[n - 1]);
      RoundReconstructs(HeardAll(t, RunEvents(answers[..n])), answers[n - 1], answers[n]);
    }
  }

  lemma KnowsIfAgrees(t: Table, es: seq<Entry>)
    ensures Agrees(t, es) ==> Knows(t, es)
  {
  }

  /** `a` and `b` list the same services with the same status. */
  predicate SameServices(a: seq<Entry>, b: seq<Entry>) {
    && (forall x :: x in a ==> Listed(x, b))
    && (forall y :: y in b ==> Listed(y, a))
  }

  predicate Listed(x: Entry, es: seq<Entry>) {
    exists y :: y in es && y.id == x.id && y.status == x.status
  }

  lemma SilentMeansSame(a: seq<Entry>, b: seq<Entry>)
    requires UniqueIds(a) && UniqueIds(b)
    requires Missing(b, a) == [] && Missing(a, b) == [] && Changed(a, b) == []
    ensures SameServices(a, b)
  {
    MissingEntries(b, a);
    MissingEntries(a, b);
    MissingUnique(b, a);
    ChangedEntries(a, b);
    hide Missing, Changed, HasId, UniqueIds;
    forall x | x in a
      ensures Listed(x, b)
    {
      assert x !in Missing(a, b);
      InIds(b, x.id);
      var y :| y in b && y.id == x.id;
      assert y !in Changed(a, b);
    }
    forall y | y in b
      ensures Listed(y, a)
    {
      assert y !in Missing(b, a);
      InIds(a, y.id);
      var x :| x in a && x.id == y.id;
      assert y !in Changed(a, b);
    }
  }

  lemma SomeOrNone(es: seq<Entry>)
    ensures es == [] || exists e :: e in es
  {
    if es != [] {
      assert es[0] in es;
    }
  }

  lemma SameMeansNoneMissing(a: seq<Entry>, b: seq<Entry>)
    requires forall x :: x in a ==> Listed(x, b)
    ensures Missing(a, b) == []
  {
    MissingEntries(a, b);
    forall x | x in a
      ensures HasId(b, x.id)
    {
      assert Listed(x, b);
      InIds(b, x.id);
    }
    SomeOrNone(Missing(a, b));
  }

  lemma SameMeansNoneChanged(a: seq<Entry>, b: seq<Entry>)
    requires UniqueIds(a) && UniqueIds(b)
    requires forall y :: y in b ==> Listed(y, a)
    ensures Changed(a, b) == []
  {
    ChangedEntries(a, b);
    forall y, e | y in b && e in a && y.id == e.id
      ensures y.status == e.status
    {
      assert Listed(y, a);
      var x :| x in a && x.id == y.id && x.status == y.status;
      OneEntry(a, x, e);
    }
    SomeOrNone(Changed(a, b));
  }

  /** What goes unnoticed: a round is silent exactly when the same services are there with the same
      status, so a change of the leader tag alone is never reported. */
  lemma SilentRound(a: seq<Entry>, b: seq<Entry>)
    requires UniqueIds(a) && UniqueIds(b)
    ensures RoundEvents(a, b) == [] <==> SameServices(a, b)
  {
    hide Missing, Changed, UniqueIds, Listed;
    if SameServices(a, b) {
      SameMeansNoneMissing(a, b);
      SameMeansNoneMissing(b, a);
      SameMeansNoneChanged(a, b);
    }
    if RoundEvents(a, b) == [] {
      assert |RoundEvents(a, b)| == |Missing(b, a)| + |Missing(a, b)| + |Changed(a, b)|;
      SilentMeansSame(a, b);
    }
  }
}
