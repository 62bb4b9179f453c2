/** The etcd proxy (pkg/etcd/etcdproxy.go): one health-check routine for each server in use. */
module EtcdProxy {
  import opened LoadBalancer

  class Proxy {
    const lb: LoadBalancer
    /** The addresses with a running health-check routine: the keys of the disconnect map. */
    var disconnect: set<string>

    ghost predicate Valid()
      reads this, lb
    {
      lb.Valid()
    }

    constructor (lb: LoadBalancer)
      requires lb.Valid()
      ensures Valid() && this.lb == lb && disconnect == {}
    {
      this.lb := lb;
      disconnect := {};
    }

    /**
     Updates the load balancer, starts a routine for every server without one, and stops those whose
     server is gone.  A server that gets a routine is checked by it from then on.
     */
    method Update(addresses: seq<string>, shuffle: seq<string> -> seq<string>)
      requires Valid() && forall s :: multiset(shuffle(s)) == multiset(s)
      modifies this, lb
      ensures Valid() && disconnect == Elements(lb.serverAddresses)
      ensures lb.defaultServerAddress == old(lb.defaultServerAddress)
      ensures Elements(lb.serverAddresses) ==
              if Elements(addresses) - {""} == {} then Elements(old(lb.serverAddresses)) else Elements(addresses) - {""}
      ensures forall a | a in lb.serverAddresses && a !in old(disconnect) :: lb.servers[a] == Probe(a)
      ensures old(disconnect) == Elements(old(lb.serverAddresses)) ==>
                forall a | a in Elements(lb.serverAddresses) * old(disconnect) :: lb.servers[a] == old(lb.servers)[a]
    {
      var changed := lb.SetServers(addresses, shuffle);
      StartRoutines();
      StopRoutines(Elements(lb.serverAddresses));
    }

    /** The first loop: a routine and its health check for every server that has none. */
    method StartRoutines()
      requires Valid()
      modifies `disconnect, lb`servers
      ensures Valid() && disconnect == old(disconnect) + Elements(lb.serverAddresses)
      ensures lb.servers == Probed(old(lb.servers), Elements(lb.serverAddresses) - old(disconnect))
    {
      ghost var servers, known := lb.servers, disconnect;
      var list := lb.serverAddresses;
      StartedNone(servers, known, list);
      for i := 0 to |list|
        invariant Valid() && list == lb.serverAddresses
        invariant StartedUpTo(servers, known, list, i, lb.servers, disconnect)
      {
        StartedOneMore(servers, known, list, i, lb.servers, disconnect);
        StartRoutine(list[i]);
      }
      assert list[..|list|] == list;
    }

    method StartRoutine(address: string)
      requires Valid() && address in lb.serverAddresses
      modifies `disconnect, lb`servers
      ensures Valid() && disconnect == old(disconnect) + {address}
      ensures lb.servers == if address in old(disconnect) then old(lb.servers) else old(lb.servers)[address := Probe(address)]
    {
      if address !in disconnect {
        disconnect := disconnect + {address};
        lb.SetHealthCheck(address, Probe(address));
      }
    }

    /** The second loop: routines of servers that are gone are cancelled and forgotten. */
    method StopRoutines(validEndpoint: set<string>)
      requires validEndpoint <= disconnect
      modifies `disconnect
      ensures disconnect == validEndpoint
    {
      var todo := disconnect;
      while todo != {}
        invariant validEndpoint <= disconnect <= validEndpoint + todo
        decreases |todo|
      {
        var address :| address in todo;
        todo := todo - {address};
        if address !in validEndpoint {
          disconnect := disconnect - {address};
        }
      }
    }
  }

  function Probed(servers: Servers, addresses: set<string>): Servers {
    map a | a in servers :: if a in addresses then Probe(a) else servers[a]
  }

  /** The first `i` of the listed servers have a routine, the new ones of them with their probe. */
  ghost predicate StartedUpTo(servers: Servers, known: set<string>, list: seq<string>, i: nat, now: Servers, running: set<string>)
    requires i <= |list|
  {
    running == known + Elements(list[..i]) && now == Probed(servers, Elements(list[..i]) - known)
  }

  lemma StartedNone(servers: Servers, known: set<string>, list: seq<string>)
    ensures StartedUpTo(servers, known, list, 0, servers, known)
  {
  }

  lemma StartedOneMore(servers: Servers, known: set<string>, list: seq<string>, i: nat, now: Servers, running: set<string>)
    requires i < |list| && StartedUpTo(servers, known, list, i, now, running) && list[i] in servers
    ensures StartedUpTo(servers, known, list, i + 1,
                        if list[i] in running then now else now[list[i] := Probe(list[i])], running + {list[i]})
  {
    assert Elements(list[..i + 1]) == Elements(list[..i]) + {list[i]};
    if list[i] in running {
      assert Elements(list[..i + 1]) - known == Elements(list[..i]) - known;
    }
  }
}
