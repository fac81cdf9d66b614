/** The subscriber's table of servers (client/watcher.go, client/tcp.go): it follows the snapshots of
    Consul, and the next server to connect to is chosen from it. */
module ServiceMirror {
  import opened WatchService

  function Addrs(es: seq<Entry>): set<string> {
    set i | 0 <= i < |es| :: es[i].addr
  }

  lemma InAddrs(es: seq<Entry>, addr: string)
    ensures addr in Addrs(es) <==> exists e :: e in es && e.addr == addr
  {
    if e :| e in es && e.addr == addr {
      var i :| 0 <= i < |es| && es[i] == e;
    }
  }

  /** Which answers the table can follow. An entry that stays must bring an address that is added with
      some entry, or was known and is removed with none; and the address it had must still be in the
      answer, or be removed with some entry. */
  ghost predicate Followable(a: seq<Entry>, b: seq<Entry>) {
    && (forall y :: y in b && HasId(a, y.id) ==>
          y.addr in Addrs(Missing(b, a)) || (y.addr in Addrs(a) && y.addr !in Addrs(Missing(a, b))))
    && (forall x :: x in a && HasId(b, x.id) ==> x.addr in Addrs(b) || x.addr in Addrs(Missing(a, b)))
  }

  /** Every service keeps its address. */
  ghost predicate AddressesFixed(a: seq<Entry>, b: seq<Entry>) {
    forall x, y :: x in a && y in b && x.id == y.id ==> x.addr == y.addr
  }

  class ServerNode {
    const addr: string
    var offline: bool
    var connects: nat

    constructor (addr: string)
      ensures this.addr == addr && !offline && connects == 0
    {
      this.addr := addr;
      offline, connects := false, 0;
    }
  }

  class ServiceTable {
    var addrs: seq<Entry>
    var services: map<string, ServerNode>

    /** Every server is filed under its own address. */
    ghost predicate Valid()
      reads this
    {
      forall k :: k in services ==> services[k].addr == k
    }

    constructor ()
      ensures Valid() && addrs == [] && services == map[]
    {
      addrs, services := [], map[];
    }

    /** The watch callback for EV_DELETE, for each entry. */
    method DialDelete(answer: seq<Entry>)
      requires Valid()
      modifies this`services
      ensures Valid() && services == old(services) - Addrs(Missing(addrs, answer))
    {
      var deleted := GetDelete(addrs, answer);
      for i := 0 to |deleted|
        invariant services == old(services) - Addrs(deleted[..i])
      {
        assert Addrs(deleted[..i + 1]) == Addrs(deleted[..i]) + {deleted[i].addr};
        services := services - {deleted[i].addr};
      }
      assert deleted[..|deleted|] == deleted;
    }

    /** The watch callback for EV_ADD, for each entry: known servers are kept as they are. */
    method DialAdd(answer: seq<Entry>)
      requires Valid()
      modifies this`services
      ensures Valid() && services.Keys == old(services).Keys + Addrs(Missing(answer, addrs))
      ensures forall k :: k in old(services) ==> services[k] == old(services)[k]
      ensures forall k :: k in services && k !in old(services) ==>
                fresh(services[k]) && !services[k].offline && services[k].connects == 0
    {
      var added := GetDelete(answer, addrs);
      AddAll(added);
    }

    method AddAll(added: seq<Entry>)
      requires Valid()
      modifies this`services
      ensures Valid() && services.Keys == old(services).Keys + Addrs(added)
      ensures forall k :: k in old(services) ==> services[k] == old(services)[k]
      ensures forall k :: k in services && k !in old(services) ==>
                fresh(services[k]) && !services[k].offline && services[k].connects == 0
    {
      for i := 0 to |added|
        invariant Valid() && services.Keys == old(services).Keys + Addrs(added[..i])
        invariant forall k :: k in old(services) ==> services[k] == old(services)[k]
        invariant forall k :: k in services && k !in old(services) ==>
                    fresh(services[k]) && !services[k].offline && services[k].connects == 0
      {
        assert Addrs(added[..i + 1]) == Addrs(added[..i]) + {added[i].addr};
        if added[i].addr !in services {
          var node := new ServerNode(added[i].addr);
          services := services[added[i].addr := node];
        }
      }
      assert added[..|added|] == added;
    }

    /** One round of `process`: the table mirrors the snapshot again, exactly if the answer is one it can
        follow; and a server whose address was not removed is not forgotten. */
    method Process(answer: seq<Entry>)
      requires Valid() && services.Keys == Addrs(addrs)
      modifies this
      ensures Valid() && addrs == answer
      ensures services.Keys == Addrs(answer) <==> Followable(old(addrs), answer)
      ensures forall k :: k in old(services) && k !in Addrs(Missing(old(addrs), answer)) ==>
                k in services && services[k] == old(services)[k]
      ensures forall k :: k in services && !(k in old(services) && k !in Addrs(Missing(old(addrs), answer))) ==>
                fresh(services[k]) && !services[k].offline && services[k].connects == 0
      ensures forall k :: k in old(services) ==> old(services)[k].offline == old(services[k].offline)
      ensures services.Keys
           == old(services).Keys - Addrs(Missing(old(addrs), answer)) + Addrs(Missing(answer, old(addrs)))
    {
      hide Missing, Addrs, Followable;
      DialDelete(answer);
      DialAdd(answer);
      RoundMirrors(addrs, answer);
      addrs := answer;
    }

    /** `getMembers` and the loop behind it in `NewClient`: the snapshot is replaced without looking for
        what has gone. The watch loop may have run before, so the table follows only if nothing has. */
    method GetMembers(members: seq<Entry>)
      requires Valid() && services.Keys == Addrs(addrs)
      modifies this
      ensures Valid() && addrs == members
      ensures services.Keys == old(services).Keys + Addrs(members)
      ensures services.Keys == Addrs(addrs) <==> old(Addrs(addrs)) <= Addrs(members)
      ensures forall k :: k in old(services) ==> services[k] == old(services)[k]
      ensures forall k :: k in services && k !in old(services) ==>
                fresh(services[k]) && !services[k].offline && services[k].connects == 0
      ensures forall k :: k in old(services) ==> old(services)[k].offline == old(services[k].offline)
    {
      addrs := members;
      AddAll(members);
    }

    /** `getServer`: no server exactly if all are marked offline, else one that is not and has the least
        connections. Go visits a map in any order. */
    method GetServer(getConnects: string -> nat) returns (r: ServerNode?)
      requires Valid()
      modifies (set k | k in services :: services[k])`connects
      ensures r == null <==> forall k :: k in services ==> services[k].offline
      ensures r != null ==>
                && r.addr in services && services[r.addr] == r && !r.offline
                && r.connects == getConnects(r.addr)
                && forall k :: k in services && !services[k].offline ==> r.connects <= getConnects(k)
    {
      r := null;
      var rest := services.Keys;
      while rest != {} && r == null
        invariant rest <= services.Keys
        invariant r == null ==> forall k :: k in services && k !in rest ==> services[k].offline
        invariant r != null ==> r.addr in services && services[r.addr] == r && !r.offline
        invariant r != null ==> r.connects == getConnects(r.addr)
        decreases rest
      {
        var k :| k in rest;
        if !services[k].offline {
          r := services[k];
          r.connects := getConnects(k);
        }
        rest := rest - {k};
      }
      if r == null {
        return;
      }
      var currentNode: ServerNode := r;
      rest := services.Keys;
      while rest != {}
        invariant rest <= services.Keys
        invariant currentNode.addr in services && services[currentNode.addr] == currentNode
        invariant !currentNode.offline && currentNode.connects == getConnects(currentNode.addr)
        invariant forall k :: k in services && k !in rest && !services[k].offline ==>
                    currentNode.connects <= getConnects(k)
        decreases rest
      {
        var k :| k in rest;
        var server := services[k];
        if !server.offline {
          server.connects := getConnects(k);
          if server.connects < currentNode.connects {
            currentNode := server;
          }
        }
        rest := rest - {k};
      }
      r := currentNode;
    }

    /** A round and the next choice of a server: there is none exactly if the table holds nothing but servers
        it had before and were offline; so an answer with a new address always leaves one to connect to. */
    method ProcessAndChoose(answer: seq<Entry>, getConnects: string -> nat) returns (r: ServerNode?)
      requires Valid() && services.Keys == Addrs(addrs)
      modifies this, (set k | k in services :: services[k])`connects
      ensures Valid() && addrs == answer
      ensures r == null <==>
                forall k :: k in services ==>
                  k in old(services) && k !in Addrs(Missing(old(addrs), answer)) && old(services[k].offline)
      ensures (exists y :: y in Missing(answer, old(addrs)) && y.addr !in old(services)) ==> r != null
      ensures r != null ==>
                && r.addr in services && services[r.addr] == r && !r.offline
                && r.connects == getConnects(r.addr)
                && forall k :: k in services && !services[k].offline ==> r.connects <= getConnects(k)
    {
      hide Missing, Addrs;
      Process(answer);
      r := GetServer(getConnects);
      ghost var added := Missing(answer, old(addrs));
      if y :| y in added && y.addr !in old(services) {
        InAddrs(added, y.addr);
      }
    }
  }

  /** Deleting what is missing and adding what is new turns one snapshot's addresses into the other's,
      exactly if the other can be followed. */
  lemma RoundMirrors(a: seq<Entry>, b: seq<Entry>)
    ensures Addrs(a) - Addrs(Missing(a, b)) + Addrs(Missing(b, a)) == Addrs(b) <==> Followable(a, b)
  {
    if Followable(a, b) {
      forall addr
        ensures addr in Addrs(a) - Addrs(Missing(a, b)) + Addrs(Missing(b, a)) <==> addr in Addrs(b)
      {
        MirrorsOne(a, b, addr);
      }
    } else if y :| (y in b && HasId(a, y.id) && y.addr !in Addrs(Missing(b, a)) &&
                    (y.addr !in Addrs(a) || y.addr in Addrs(Missing(a, b)))) {
      InAddrs(b, y.addr);
    } else {
      var x :| x in a && HasId(b, x.id) && !(x.addr in Addrs(b) || x.addr in Addrs(Missing(a, b)));
      InAddrs(a, x.addr);
    }
  }

  lemma MirrorsOne(a: seq<Entry>, b: seq<Entry>, addr: string)
    requires Followable(a, b)
    ensures addr in Addrs(a) - Addrs(Missing(a, b)) + Addrs(Missing(b, a)) <==> addr in Addrs(b)
  {
    hide Missing, Addrs, HasId;
    MissingEntries(a, b);
    MissingEntries(b, a);
    InAddrs(a, addr);
    InAddrs(b, addr);
    InAddrs(Missing(a, b), addr);
    InAddrs(Missing(b, a), addr);
  }

  /** While every service keeps its address, the table loses exactly the addresses that a service that
      stays shares with one that goes, unless a new one brings them back. */
  lemma SharedAddressIsLost(a: seq<Entry>, b: seq<Entry>)
    requires AddressesFixed(a, b)
    ensures Followable(a, b) <==>
              forall y :: y in b && HasId(a, y.id) && y.addr in Addrs(Missing(a, b)) ==> y.addr in Addrs(Missing(b, a))
  {
    hide Missing, Addrs, HasId;
    forall y | y in b && HasId(a, y.id)
      ensures y.addr in Addrs(a)
    {
      InIds(a, y.id);
      var x :| x in a && x.id == y.id;
      InAddrs(a, y.addr);
    }
    forall x | x in a && HasId(b, x.id)
      ensures x.addr in Addrs(b)
    {
      InIds(b, x.id);
      var y :| y in b && y.id == x.id;
      InAddrs(b, x.addr);
    }
  }

  /** No two services use the same address, at the same time or one after the other. */
  ghost predicate NoSharing(a: seq<Entry>, b: seq<Entry>) {
    forall x, y :: x in a + b && y in a + b && x.addr == y.addr ==> x.id == y.id
  }

  /** While no address is shared, the table follows an answer exactly if no service has moved: a service that
      stays under another address is neither deleted nor added. */
  lemma MovedAddressIsMissed(a: seq<Entry>, b: seq<Entry>)
    requires UniqueIds(a) && NoSharing(a, b)
    ensures Followable(a, b) <==> AddressesFixed(a, b)
  {
    hide Missing, Addrs, HasId, UniqueIds, NoSharing;
    if AddressesFixed(a, b) {
      SharedAddressIsLost(a, b);
      forall y | y in b && HasId(a, y.id)
        ensures y.addr !in Addrs(Missing(a, b))
      {
        NotGiven(a, b, y);
      }
    } else {
      var x, y :| x in a && y in b && x.id == y.id && x.addr != y.addr;
      MovedIsNew(a, b, x, y);
    }
  }

  /** The address of a service that stays is not given up. */
  lemma NotGiven(a: seq<Entry>, b: seq<Entry>, y: Entry)
    requires NoSharing(a, b) && y in b
    ensures y.addr !in Addrs(Missing(a, b))
  {
    hide Missing, Addrs, HasId;
    MissingEntries(a, b);
    InAddrs(Missing(a, b), y.addr);
    InIds(b, y.id);
    assert forall x :: x in a && x.addr == y.addr ==> x in a + b && y in a + b;
  }

  /** The address of a service that has moved is neither known nor added. */
  lemma MovedIsNew(a: seq<Entry>, b: seq<Entry>, x: Entry, y: Entry)
    requires UniqueIds(a) && NoSharing(a, b) && x in a && y in b && x.id == y.id && x.addr != y.addr
    ensures HasId(a, y.id) && y.addr !in Addrs(a) && y.addr !in Addrs(Missing(b, a))
  {
    hide Missing, Addrs, HasId, UniqueIds;
    MissingEntries(b, a);
    InAddrs(a, y.addr);
    InAddrs(Missing(b, a), y.addr);
    InIds(a, y.id);
    assert y in a + b;
    if w :| w in a && w.addr == y.addr {
      assert w in a + b;
      OneEntry(a, x, w);
    }
    assert forall z :: z in b && z.addr == y.addr ==> z in a + b;
  }

  /** Services and addresses belong together one to one. */
  ghost predicate OneToOne(a: seq<Entry>, b: seq<Entry>) {
    forall x, y :: x in a + b && y in a + b ==> (x.id == y.id <==> x.addr == y.addr)
  }

  /** Then the table follows every answer. */
  lemma OneToOneIsFollowable(a: seq<Entry>, b: seq<Entry>)
    requires OneToOne(a, b)
    ensures Followable(a, b)
  {
    hide Missing, Addrs, HasId;
    SharedAddressIsLost(a, b) by {
      assert forall x, y :: x in a && y in b ==> x in a + b && y in a + b;
    }
    forall y | y in b && HasId(a, y.id)
      ensures y.addr !in Addrs(Missing(a, b))
    {
      MissingEntries(a, b);
      InAddrs(Missing(a, b), y.addr);
      InIds(b, y.id);
      assert forall x :: x in a && x.addr == y.addr ==> x in a + b && y in a + b;
    }
  }
}
