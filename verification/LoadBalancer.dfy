/**
 The client load balancer (pkg/agent/loadbalancer): the server list and map, the fail-over rotation,
 and the two-pass dial loop.  Connections are not modelled; a health check is a constant or a probe.
 */
module LoadBalancer {
  import opened StringOrder
  import opened Wrappers

  datatype Check = AlwaysUp | AlwaysDown | Probe(address: string)

  type Servers = map<string, Check>

  function Elements(s: seq<string>): set<string> {
    set x | x in s
  }

  // ---------- sortServers ----------

  /** Sorted and free of duplicates and empty entries; also whether `search` is among them. */
  method SortServers(input: seq<string>, search: string) returns (result: seq<string>, found: bool)
    ensures Increasing(result) && Elements(result) == Elements(input) - {""}
    ensures found <==> search in Elements(result)
  {
    result := [];
    found := false;
    var skip := {""};
    for i := 0 to |input|
      invariant skip == {""} + Elements(input[..i])
      invariant Distinct(result) && Elements(result) == Elements(input[..i]) - {""}
      invariant found <==> search in Elements(result)
    {
      assert Elements(input[..i + 1]) == Elements(input[..i]) + {input[i]};
      if input[i] !in skip {
        if search == input[i] {
          found := true;
        }
        skip := skip + {input[i]};
        assert Elements(result + [input[i]]) == Elements(result) + {input[i]};
        result := result + [input[i]];
      }
    }
    assert input[..|input|] == input;
    SortIncreasing(result);
    ghost var unsorted := result;
    result := Sort(result);
    assert Elements(result) == Elements(unsorted);
  }

  lemma IncreasingSingleton(s: seq<string>, a: string)
    requires Increasing(s) && Elements(s) == {a}
    ensures s == [a]
  {
    forall i | 0 <= i < |s|
      ensures s[i] == a
    {
      assert s[i] in Elements(s);
    }
    if |s| > 1 {
      assert Less(s[0], s[1]);
      LessIrreflexive(a);
      assert false;
    }
    assert a in Elements(s);
  }

  // ---------- The server map ----------

  function WithAdded(servers: Servers, added: set<string>): Servers {
    map a | a in servers.Keys + added :: if a in added then AlwaysUp else servers[a]
  }

  /** The default server stays in the map, in case it is needed to fall back to. */
  function WithoutRemoved(servers: Servers, removed: set<string>, dflt: string): Servers {
    map a | a in servers && (a !in removed || a == dflt) :: servers[a]
  }

  lemma AddOne(servers: Servers, added: set<string>, a: string)
    ensures WithAdded(servers, added)[a := AlwaysUp] == WithAdded(servers, added + {a})
    ensures WithAdded(servers, {}) == servers
  {
  }

  lemma RemoveOne(servers: Servers, removed: set<string>, dflt: string, a: string)
    ensures var before := WithoutRemoved(servers, removed, dflt);
            WithoutRemoved(servers, removed + {a}, dflt) == if a == dflt then before else before - {a}
    ensures WithoutRemoved(servers, {}, dflt) == servers
  {
  }

  lemma AfterChangeInSteps(servers: Servers, cur: set<string>, next: set<string>, dflt: string)
    requires Consistent(servers, cur, dflt)
    ensures var stepped := WithoutRemoved(WithAdded(servers, next - cur), cur - next, dflt);
            AfterChange(servers, cur, next, dflt) ==
            if dflt !in next && dflt in stepped then stepped[dflt := AlwaysDown] else stepped
  {
  }

  /** The server map after the address list changed from `cur` to `next`. */
  function AfterChange(servers: Servers, cur: set<string>, next: set<string>, dflt: string): Servers {
    map a | a in servers.Keys + next && (a in next || a !in cur || a == dflt) ::
      if a in next - cur then AlwaysUp
      else if a == dflt && a !in next then AlwaysDown
      else if a in servers then servers[a] else AlwaysUp
  }

  /** New servers count as healthy, servers that stay keep their check, others go unless they are the default. */
  lemma ChangeChecks(servers: Servers, cur: set<string>, next: set<string>, dflt: string)
    requires Consistent(servers, cur, dflt)
    ensures var after := AfterChange(servers, cur, next, dflt);
            && (forall a | a in next - cur :: a in after && after[a] == AlwaysUp)
            && (forall a | a in next * cur :: a in after && after[a] == servers[a])
            && (forall a | a in after && a !in next :: a == dflt && after[a] == AlwaysDown)
            && (dflt in servers ==> dflt in after)
  {
  }

  /** The server map after the default changed from `dflt` to `next`. */
  function AfterDefault(servers: Servers, cur: set<string>, dflt: string, next: string): Servers {
    var kept := if dflt in cur then servers else servers - {dflt};
    if next in kept then kept else kept[next := AlwaysDown]
  }

  /**
   The list is inside the map, the map is inside the list plus the default, and a default outside
   the list always fails its health check.
   */
  predicate Consistent(servers: Servers, cur: set<string>, dflt: string) {
    && cur <= servers.Keys <= cur + {dflt}
    && (dflt in servers && dflt !in cur ==> servers[dflt] == AlwaysDown)
  }

  lemma ChangeKeepsConsistent(servers: Servers, cur: set<string>, next: set<string>, dflt: string)
    requires Consistent(servers, cur, dflt)
    ensures Consistent(AfterChange(servers, cur, next, dflt), next, dflt)
    ensures forall a | a in next * cur :: AfterChange(servers, cur, next, dflt)[a] == servers[a]
  {
  }

  lemma DefaultKeepsConsistent(servers: Servers, cur: set<string>, dflt: string, next: string)
    requires Consistent(servers, cur, dflt)
    ensures Consistent(AfterDefault(servers, cur, dflt, next), cur, next)
    ensures next in AfterDefault(servers, cur, dflt, next)
  {
  }

  /** A new address list, a new default server, or a new health check. */
  datatype Event = ListChanged(next: set<string>) | DefaultChanged(address: string) | CheckSet(address: string, check: Check)

  /** What setServers, SetDefault and SetHealthCheck maintain besides the rotation. */
  datatype Table = Table(servers: Servers, cur: set<string>, dflt: string)

  function WithCheck(servers: Servers, address: string, check: Check): Servers {
    if address in servers then servers[address := check] else servers
  }

  function AfterEvent(t: Table, e: Event): Table {
    match e
    case ListChanged(next) => Table(AfterChange(t.servers, t.cur, next, t.dflt), next, t.dflt)
    case DefaultChanged(address) => Table(AfterDefault(t.servers, t.cur, t.dflt, address), t.cur, address)
    case CheckSet(address, check) => t.(servers := WithCheck(t.servers, address, check))
  }

  function AfterEvents(t: Table, events: seq<Event>): Table
    decreases |events|
  {
    if events == [] then t else AfterEvents(AfterEvent(t, events[0]), events[1..])
  }

  /** Checks are only set for servers on the list at that time, as the proxy does. */
  predicate ChecksListed(t: Table, events: seq<Event>)
    decreases |events|
  {
    events == [] ||
    ((events[0].CheckSet? ==> events[0].address in t.cur) && ChecksListed(AfterEvent(t, events[0]), events[1..]))
  }

  /** The last check set for `a`, or `c` if there is none. */
  function LastCheck(events: seq<Event>, a: string, c: Check): Check
    decreases |events|
  {
    if events == [] then c
    else LastCheck(events[1..], a, if events[0].CheckSet? && events[0].address == a then events[0].check else c)
  }

  /**
   MAIN: over any run of list, default and check changes the map holds the listed servers, and at most
   the default besides, which then fails its check; a server listed throughout has the check last set
   for it, or the one it began with.
   */
  lemma {:induction false} RunKeepsTable(t: Table, events: seq<Event>, a: string)
    requires Consistent(t.servers, t.cur, t.dflt) && ChecksListed(t, events)
    ensures var end := AfterEvents(t, events); Consistent(end.servers, end.cur, end.dflt)
    ensures a in t.cur && (forall i | 0 <= i < |events| && events[i].ListChanged? :: a in events[i].next) ==>
              a in AfterEvents(t, events).servers && AfterEvents(t, events).servers[a] == LastCheck(events, a, t.servers[a])
    decreases |events|
  {
    if events != [] {
      assert forall i | 0 <= i < |events[1..]| :: events[1..][i] == events[i + 1];
      match events[0] {
        case ListChanged(next) => ChangeKeepsConsistent(t.servers, t.cur, next, t.dflt);
        case DefaultChanged(address) => DefaultKeepsConsistent(t.servers, t.cur, t.dflt, address);
        case CheckSet(address, check) =>
      }
      RunKeepsTable(AfterEvent(t, events[0]), events[1..], a);
    }
  }

  // ---------- Rotation and dialling ----------

  /** The rotation entries from the current one on, all the way round. */
  function FromCurrent(random: seq<string>, next: nat): seq<string>
    requires 1 <= next <= |random|
  {
    random[next - 1..] + random[..next - 1]
  }

  /** The entry `i` places behind the current one. */
  lemma FromCurrentAt(random: seq<string>, next: nat, i: nat)
    requires 1 <= next <= |random| && i < |random|
    ensures FromCurrent(random, next)[i] == random[IndexAt(|random|, next, i) - 1]
  {
  }

  /** The shuffled list, followed by a default that is not in it. */
  function Rotation(shuffle: seq<string> -> seq<string>, s: seq<string>, dflt: string): seq<string> {
    if dflt in Elements(s) then shuffle(s) else shuffle(s) + [dflt]
  }

  lemma RotationCovers(shuffle: seq<string> -> seq<string>, s: seq<string>, dflt: string)
    requires multiset(shuffle(s)) == multiset(s)
    ensures Elements(Rotation(shuffle, s, dflt)) == Elements(s) + {dflt}
    ensures |Rotation(shuffle, s, dflt)| == if dflt in Elements(s) then |s| else |s| + 1
  {
    SameElements(shuffle(s), s);
    assert |shuffle(s)| == |multiset(shuffle(s))| && |s| == |multiset(s)|;
  }

  /** The rotation that setServers leaves has no entry twice. */
  lemma RotationDistinct(shuffle: seq<string> -> seq<string>, s: seq<string>, dflt: string)
    requires Increasing(s) && multiset(shuffle(s)) == multiset(s)
    ensures Distinct(Rotation(shuffle, s, dflt))
  {
    forall i, j | 0 <= i < j < |s|
      ensures s[i] != s[j]
    {
      LessIrreflexive(s[i]);
    }
    DistinctCounts(s);
    DistinctCounts(shuffle(s));
    SameElements(shuffle(s), s);
  }

  /** An unlisted default is the last entry, behind all the listed servers. */
  lemma UnlistedDefaultIsLast(shuffle: seq<string> -> seq<string>, s: seq<string>, dflt: string)
    requires s != [] && dflt !in s && multiset(shuffle(s)) == multiset(s)
    ensures var random := Rotation(shuffle, s, dflt);
            && |random| == |s| + 1 && random[|s|] == dflt
            && (forall i | 0 <= i < |s| :: random[i] in s) && (forall a | a in s :: a in random[..|s|])
  {
    RotationCovers(shuffle, s, dflt);
    SameElements(shuffle(s), s);
    var random := Rotation(shuffle, s, dflt);
    assert random[..|s|] == shuffle(s);
    forall i | 0 <= i < |s|
      ensures random[i] in s
    {
      assert random[i] == shuffle(s)[i] && shuffle(s)[i] in shuffle(s);
    }
  }

  /** The list index after the dialler went `pos` places on from index `first`. */
  function IndexAt(n: nat, first: nat, pos: nat): nat
    requires 1 <= first <= n && pos < n
  {
    if first + pos <= n then first + pos else first + pos - n
  }

  /** `order` lists the servers as the rotation visits them from index `next` on. */
  ghost predicate OrderIs(order: seq<string>, random: seq<string>, next: nat) {
    if random == [] then order == [""]
    else
      && 1 <= next <= |random| && |order| == |random|
      && forall i | 0 <= i < |order| :: order[i] == random[IndexAt(|random|, next, i) - 1]
  }

  predicate Accepting(servers: Servers, accepts: string -> bool, a: string) {
    a != "" && a in servers && accepts(a)
  }

  predicate Healthy(servers: Servers, probe: string -> bool, a: string) {
    a in servers && (servers[a].AlwaysUp? || (servers[a].Probe? && probe(servers[a].address)))
  }

  predicate Good(servers: Servers, probe: string -> bool, accepts: string -> bool, a: string) {
    Accepting(servers, accepts, a) && Healthy(servers, probe, a)
  }

  /** Exactly the dial attempts a dial makes, and the server it ends with. */
  datatype DialResult = DialResult(server: Option<string>, attempts: nat)

  function FirstGood(servers: Servers, probe: string -> bool, accepts: string -> bool, order: seq<string>): (r: Option<nat>)
    ensures r.Some? ==> r.value < |order| && Good(servers, probe, accepts, order[r.value])
    ensures r.Some? ==> forall i | 0 <= i < r.value :: !Good(servers, probe, accepts, order[i])
    ensures r.None? ==> forall i | 0 <= i < |order| :: !Good(servers, probe, accepts, order[i])
  {
    if order == [] then None
    else if Good(servers, probe, accepts, order[0]) then Some(0)
    else match FirstGood(servers, probe, accepts, order[1..])
         case None => None
         case Some(i) => Some(i + 1)
  }

  function FirstAccepting(servers: Servers, accepts: string -> bool, order: seq<string>): (r: Option<nat>)
    ensures r.Some? ==> r.value < |order| && Accepting(servers, accepts, order[r.value])
    ensures r.Some? ==> forall i | 0 <= i < r.value :: !Accepting(servers, accepts, order[i])
    ensures r.None? ==> forall i | 0 <= i < |order| :: !Accepting(servers, accepts, order[i])
  {
    if order == [] then None
    else if Accepting(servers, accepts, order[0]) then Some(0)
    else match FirstAccepting(servers, accepts, order[1..])
         case None => None
         case Some(i) => Some(i + 1)
  }

  /** First healthy accepting server in rotation order, else first accepting one, else an error. */
  function Dialled(servers: Servers, probe: string -> bool, accepts: string -> bool, order: seq<string>): DialResult {
    match FirstGood(servers, probe, accepts, order)
    case Some(i) => DialResult(Some(order[i]), i + 1)
    case None =>
      match FirstAccepting(servers, accepts, order)
      case Some(i) => DialResult(Some(order[i]), |order| + i + 1)
      case None => DialResult(None, 2 * |order|)
  }

  /** The dial loop, one entry at a time: health checks count in the first pass only. */
  function DialFrom(servers: Servers, probe: string -> bool, accepts: string -> bool,
                    order: seq<string>, pos: nat, allChecksFailed: bool): DialResult
    requires pos <= |order|
    decreases !allChecksFailed, |order| - pos
  {
    if pos == |order| then
      if allChecksFailed then DialResult(None, 2 * |order|) else DialFrom(servers, probe, accepts, order, 0, true)
    else if (allChecksFailed || Healthy(servers, probe, order[pos])) && Accepting(servers, accepts, order[pos]) then
      DialResult(Some(order[pos]), (if allChecksFailed then |order| else 0) + pos + 1)
    else
      DialFrom(servers, probe, accepts, order, pos + 1, allChecksFailed)
  }

  lemma DialFromStep(servers: Servers, probe: string -> bool, accepts: string -> bool, order: seq<string>, pos: nat, allChecksFailed: bool)
    requires pos < |order|
    requires !((allChecksFailed || Healthy(servers, probe, order[pos])) && Accepting(servers, accepts, order[pos]))
    ensures DialFrom(servers, probe, accepts, order, pos, allChecksFailed) ==
            if pos + 1 < |order| then DialFrom(servers, probe, accepts, order, pos + 1, allChecksFailed)
            else if allChecksFailed then DialResult(None, 2 * |order|)
            else DialFrom(servers, probe, accepts, order, 0, true)
  {
  }

  lemma {:induction false} SecondPassIsFirstAccepting(servers: Servers, probe: string -> bool, accepts: string -> bool, order: seq<string>, pos: nat)
    requires pos <= |order|
    ensures DialFrom(servers, probe, accepts, order, pos, true) ==
            match FirstAccepting(servers, accepts, order[pos..])
            case Some(i) => DialResult(Some(order[pos + i]), |order| + pos + i + 1)
            case None => DialResult(None, 2 * |order|)
    decreases |order| - pos
  {
    if pos < |order| {
      SecondPassIsFirstAccepting(servers, probe, accepts, order, pos + 1);
      assert order[pos..][1..] == order[pos + 1..];
    }
  }

  lemma {:induction false} FirstPassIsFirstGood(servers: Servers, probe: string -> bool, accepts: string -> bool, order: seq<string>, pos: nat)
    requires pos <= |order|
    ensures DialFrom(servers, probe, accepts, order, pos, false) ==
            match FirstGood(servers, probe, accepts, order[pos..])
            case Some(i) => DialResult(Some(order[pos + i]), pos + i + 1)
            case None => DialFrom(servers, probe, accepts, order, 0, true)
    decreases |order| - pos
  {
    if pos < |order| {
      FirstPassIsFirstGood(servers, probe, accepts, order, pos + 1);
      assert order[pos..][1..] == order[pos + 1..];
    }
  }

  lemma DialledBounds(servers: Servers, probe: string -> bool, accepts: string -> bool, order: seq<string>)
    ensures var r := Dialled(servers, probe, accepts, order);
            && r.attempts <= 2 * |order|
            && (r.server.Some? ==> r.server.value in order && Accepting(servers, accepts, r.server.value))
            && (r.server.None? <==> forall a | a in order :: !Accepting(servers, accepts, a))
  {
  }

  /** Two passes over the rotation choose the first healthy, else the first accepting server. */
  lemma TwoPassesChoose(servers: Servers, probe: string -> bool, accepts: string -> bool, order: seq<string>)
    ensures DialFrom(servers, probe, accepts, order, 0, false) == Dialled(servers, probe, accepts, order)
  {
    FirstPassIsFirstGood(servers, probe, accepts, order, 0);
    SecondPassIsFirstAccepting(servers, probe, accepts, order, 0);
    assert order[0..] == order;
  }

  /** A default outside the list is only ever dialled when no listed server is healthy and accepting. */
  lemma DefaultIsLastResort(servers: Servers, cur: set<string>, dflt: string, probe: string -> bool,
                            accepts: string -> bool, order: seq<string>, a: string)
    requires Consistent(servers, cur, dflt) && dflt !in cur && cur <= Elements(order)
    requires a in cur && a != "" && Good(servers, probe, accepts, a)
    ensures Dialled(servers, probe, accepts, order).server.Some?
    ensures Dialled(servers, probe, accepts, order).server.value in cur
    ensures Dialled(servers, probe, accepts, order).attempts <= |order|
  {
    var i :| 0 <= i < |order| && order[i] == a;
    assert Good(servers, probe, accepts, order[i]);
  }

  /** The table and rotation of a list that holds just the default. */
  lemma FirstList(dflt: string, shuffle: seq<string> -> seq<string>)
    requires multiset(shuffle([dflt])) == multiset([dflt])
    ensures Elements([dflt]) == {dflt}
    ensures AfterChange(map[], {}, {dflt}, dflt) == map[dflt := AlwaysUp]
    ensures Rotation(shuffle, [dflt], dflt) == [dflt]
  {
    var random := shuffle([dflt]);
    assert |random| == |multiset(random)| == |multiset([dflt])| == 1;
    assert random[0] in multiset(random);
  }

  /**
   MAIN: a dial right after the list was set, with the default not on it, ends at the default only if no
   listed server accepts, healthy or not.
   */
  lemma UnlistedDefaultIsLastResort(servers: Servers, s: seq<string>, dflt: string, shuffle: seq<string> -> seq<string>,
                                    probe: string -> bool, accepts: string -> bool)
    requires s != [] && dflt !in s && multiset(shuffle(s)) == multiset(s) && Consistent(servers, Elements(s), dflt)
    ensures var random := Rotation(shuffle, s, dflt);
            && |random| > 0
            && (Dialled(servers, probe, accepts, FromCurrent(random, 1)).server == Some(dflt) ==>
                forall a | a in s :: !Accepting(servers, accepts, a))
  {
    var random := Rotation(shuffle, s, dflt);
    UnlistedDefaultIsLast(shuffle, s, dflt);
    var order := FromCurrent(random, 1);
    assert order == random;
    assert !Healthy(servers, probe, dflt);
    if Dialled(servers, probe, accepts, order).server == Some(dflt) {
      var i := FirstAccepting(servers, accepts, order).value;
      assert order[i] == dflt && i == |s|;
      forall a | a in s
        ensures !Accepting(servers, accepts, a)
      {
        var j :| 0 <= j < |s| && random[..|s|][j] == a;
        assert order[j] == a;
      }
    }
  }

  /** A list change in terms of the lists and the map. */
  lemma CheckedNow(servers: Servers, list: seq<string>, sorted: seq<string>, dflt: string)
    requires Consistent(servers, Elements(list), dflt)
    ensures var after := AfterChange(servers, Elements(list), Elements(sorted), dflt);
            && (forall a | a in sorted && a !in list :: a in after && after[a] == AlwaysUp)
            && (forall a | a in sorted && a in list :: a in servers && a in after && after[a] == servers[a])
            && (forall a | a in after && a !in sorted :: a == dflt)
  {
    ChangeChecks(servers, Elements(list), Elements(sorted), dflt);
  }

  /** The rotation starts at a listed server, and holds them all. */
  lemma RotatesNow(sorted: seq<string>, dflt: string, shuffle: seq<string> -> seq<string>)
    requires sorted != [] && multiset(shuffle(sorted)) == multiset(sorted)
    ensures var random := Rotation(shuffle, sorted, dflt);
            && random != [] && random[0] in sorted
            && (dflt !in sorted ==> random[|random| - 1] == dflt)
            && (forall a | a in sorted :: a in random)
  {
    SameElements(shuffle(sorted), sorted);
    RotationCovers(shuffle, sorted, dflt);
    var random := Rotation(shuffle, sorted, dflt);
    if dflt in sorted {
      assert random == shuffle(sorted) && random[0] in random;
    } else {
      UnlistedDefaultIsLast(shuffle, sorted, dflt);
    }
  }

  class LoadBalancer {
    var defaultServerAddress: string
    var serverAddresses: seq<string>
    var randomServers: seq<string>
    var servers: Servers
    var currentServerAddress: string
    var nextServerIndex: nat

    /** The rotation index points just behind the current server. */
    ghost predicate Rotating()
      reads this
    {
      if randomServers == [] then currentServerAddress == ""
      else 1 <= nextServerIndex <= |randomServers| && randomServers[nextServerIndex - 1] == currentServerAddress
    }

    ghost predicate AddressesValid()
      reads `serverAddresses, `servers, `defaultServerAddress, `randomServers
    {
      && Increasing(serverAddresses) && "" !in serverAddresses
      && Consistent(servers, Elements(serverAddresses), defaultServerAddress)
      && Elements(serverAddresses) <= Elements(randomServers)
    }

    ghost predicate Valid()
      reads this
    {
      AddressesValid() && Rotating()
    }

    /** New: the default server, unless it is empty, becomes the first list. */
    constructor (defaultServerAddress: string, shuffle: seq<string> -> seq<string>)
      requires forall s :: multiset(shuffle(s)) == multiset(s)
      ensures Valid() && this.defaultServerAddress == defaultServerAddress
      ensures defaultServerAddress == "" ==> serverAddresses == [] && servers == map[] && randomServers == []
      ensures defaultServerAddress != "" ==>
                serverAddresses == [defaultServerAddress] && servers == map[defaultServerAddress := AlwaysUp] &&
                currentServerAddress == defaultServerAddress
    {
      this.defaultServerAddress := defaultServerAddress;
      serverAddresses, randomServers, servers := [], [], map[];
      currentServerAddress, nextServerIndex := "", 0;
      new;
      FirstList(defaultServerAddress, shuffle);
      var changed := SetServers([defaultServerAddress], shuffle);
      if changed {
        IncreasingSingleton(serverAddresses, defaultServerAddress);
      }
    }

    /** `shuffle` is the permutation rand.Shuffle happens to apply. */
    method SetServers(addresses: seq<string>, shuffle: seq<string> -> seq<string>) returns (changed: bool)
      requires Valid() && forall s :: multiset(shuffle(s)) == multiset(s)
      modifies this
      ensures Valid() && defaultServerAddress == old(defaultServerAddress)
      ensures changed <==> Elements(addresses) - {""} != {} && Elements(addresses) - {""} != Elements(old(serverAddresses))
      ensures !changed ==> unchanged(this)
      ensures changed ==>
                && Elements(serverAddresses) == Elements(addresses) - {""}
                && servers == AfterChange(old(servers), Elements(old(serverAddresses)), Elements(serverAddresses), defaultServerAddress)
                && randomServers == Rotation(shuffle, serverAddresses, defaultServerAddress)
                && currentServerAddress == randomServers[0] && nextServerIndex == 1
      ensures changed && defaultServerAddress !in serverAddresses ==> randomServers[|randomServers| - 1] == defaultServerAddress
      ensures changed ==>
                && currentServerAddress in serverAddresses && (forall a | a in serverAddresses :: a in randomServers)
                && (forall a | a in serverAddresses && a !in old(serverAddresses) :: servers[a] == AlwaysUp)
                && (forall a | a in serverAddresses && a in old(serverAddresses) :: servers[a] == old(servers)[a])
                && (forall a | a in servers && a !in serverAddresses :: a == defaultServerAddress)
    {
      var sorted, hasDefaultServer := SortServers(addresses, defaultServerAddress);
      changed := |sorted| > 0 && Elements(sorted) != Elements(serverAddresses);
      if |sorted| == 0 {
        assert Elements(sorted) == {};
      } else {
        assert sorted[0] in Elements(sorted);
      }
      if changed {
        CheckedNow(servers, serverAddresses, sorted, defaultServerAddress);
        RotatesNow(sorted, defaultServerAddress, shuffle);
        Install(sorted, hasDefaultServer, shuffle);
      }
    }

    /** The part of setServers that runs under the lock once the list is known to differ. */
    method Install(sorted: seq<string>, hasDefaultServer: bool, shuffle: seq<string> -> seq<string>)
      requires AddressesValid() && sorted != [] && Increasing(sorted) && "" !in Elements(sorted)
      requires hasDefaultServer <==> defaultServerAddress in Elements(sorted)
      requires multiset(shuffle(sorted)) == multiset(sorted)
      modifies `serverAddresses, `servers, `randomServers, `currentServerAddress, `nextServerIndex
      ensures AddressesValid() && Rotating() && serverAddresses == sorted
      ensures servers == AfterChange(old(servers), Elements(old(serverAddresses)), Elements(sorted), defaultServerAddress)
      ensures randomServers == Rotation(shuffle, sorted, defaultServerAddress)
      ensures randomServers != [] && currentServerAddress == randomServers[0] && nextServerIndex == 1
    {
      var newAddresses, curAddresses := Elements(sorted), Elements(serverAddresses);
      ghost var was := servers;
      ChangeKeepsConsistent(was, curAddresses, newAddresses, defaultServerAddress);
      AfterChangeInSteps(was, curAddresses, newAddresses, defaultServerAddress);
      RotationCovers(shuffle, sorted, defaultServerAddress);
      AddServers(newAddresses - curAddresses);
      RemoveServers(curAddresses - newAddresses);
      serverAddresses := sorted;
      StartRotation(hasDefaultServer, shuffle);
    }

    /** The last lines of setServers: a default that is not listed goes last, and fails its check. */
    method StartRotation(hasDefaultServer: bool, shuffle: seq<string> -> seq<string>)
      requires hasDefaultServer <==> defaultServerAddress in Elements(serverAddresses)
      requires serverAddresses != [] && multiset(shuffle(serverAddresses)) == multiset(serverAddresses)
      modifies `servers, `randomServers, `currentServerAddress, `nextServerIndex
      ensures randomServers == Rotation(shuffle, serverAddresses, defaultServerAddress) && randomServers != []
      ensures servers == if hasDefaultServer then old(servers) else WithCheck(old(servers), defaultServerAddress, AlwaysDown)
      ensures currentServerAddress == randomServers[0] && nextServerIndex == 1
    {
      RotationCovers(shuffle, serverAddresses, defaultServerAddress);
      randomServers := shuffle(serverAddresses);
      if !hasDefaultServer {
        randomServers := randomServers + [defaultServerAddress];
        if defaultServerAddress in servers {
          servers := servers[defaultServerAddress := AlwaysDown];
        }
      }
      currentServerAddress := randomServers[0];
      nextServerIndex := 1;
    }

    method AddServers(added: set<string>)
      modifies `servers
      ensures servers == WithAdded(old(servers), added)
    {
      var todo := added;
      ghost var was := servers;
      AddOne(was, {}, "");
      while todo != {}
        invariant todo <= added && servers == WithAdded(was, added - todo)
        decreases |todo|
      {
        var a :| a in todo;
        AddOne(was, added - todo, a);
        assert added - (todo - {a}) == added - todo + {a};
        todo := todo - {a};
        servers := servers[a := AlwaysUp];
      }
      assert added - todo == added;
    }

    method RemoveServers(removed: set<string>)
      modifies `servers
      ensures servers == WithoutRemoved(old(servers), removed, defaultServerAddress)
    {
      var todo := removed;
      ghost var was := servers;
      RemoveOne(was, {}, defaultServerAddress, "");
      while todo != {}
        invariant todo <= removed && servers == WithoutRemoved(was, removed - todo, defaultServerAddress)
        decreases |todo|
      {
        var a :| a in todo;
        RemoveOne(was, removed - todo, defaultServerAddress, a);
        assert removed - (todo - {a}) == removed - todo + {a};
        todo := todo - {a};
        if a in servers && a != defaultServerAddress {
          servers := servers - {a};
        }
      }
      assert removed - todo == removed;
    }

    method SetDefault(address: string)
      requires Valid()
      modifies `servers, `defaultServerAddress
      ensures Valid() && defaultServerAddress == address
      ensures servers == AfterDefault(old(servers), Elements(serverAddresses), old(defaultServerAddress), address)
    {
      DefaultKeepsConsistent(servers, Elements(serverAddresses), defaultServerAddress, address);
      var hasDefaultServer := defaultServerAddress in serverAddresses;
      if defaultServerAddress in servers && !hasDefaultServer {
        servers := servers - {defaultServerAddress};
      }
      if address !in servers {
        servers := servers[address := AlwaysDown];
      }
      defaultServerAddress := address;
    }

    /** Replaces the check of a server in the map; an unknown address is only logged. */
    method SetHealthCheck(address: string, check: Check)
      requires Valid()
      modifies `servers
      ensures servers == WithCheck(old(servers), address, check)
      ensures address in serverAddresses || address !in old(servers) ==> Valid()
    {
      if address in servers {
        servers := servers[address := check];
      }
    }

    /** Moves on when `failedServer` is still the current one; fails only on an empty list. */
    method NextServer(failedServer: string) returns (r: Option<string>)
      requires Rotating()
      modifies `currentServerAddress, `nextServerIndex
      ensures Rotating()
      ensures r.None? <==> randomServers == []
      ensures r.Some? ==> r.value == currentServerAddress
      ensures |randomServers| <= 1 || failedServer != old(currentServerAddress) ==>
                currentServerAddress == old(currentServerAddress) && nextServerIndex == old(nextServerIndex)
      ensures |randomServers| > 1 && failedServer == old(currentServerAddress) ==>
                nextServerIndex == if old(nextServerIndex) == |randomServers| then 1 else old(nextServerIndex) + 1
    {
      var current, next := currentServerAddress, nextServerIndex;
      if |randomServers| == 0 {
        return None;
      }
      if |randomServers| == 1 {
        return Some(current);
      }
      if failedServer != current {
        return Some(current);
      }
      if next >= |randomServers| {
        next := 0;
      }
      current := randomServers[next];
      next := next + 1;
      currentServerAddress := current;
      nextServerIndex := next;
      return Some(current);
    }

    /**
     The dial loop of one dialler, with health and dial outcomes fixed during the call.  On failure
     the rotation is back where it was; on success it stands at the server dialled.
     */
    method DialContext(probe: string -> bool, accepts: string -> bool) returns (r: DialResult)
      requires Rotating()
      modifies `currentServerAddress, `nextServerIndex
      ensures Rotating()
      ensures randomServers == [] ==> r == DialResult(None, 1)
      ensures randomServers != [] ==> r == Dialled(servers, probe, accepts, FromCurrent(randomServers, old(nextServerIndex)))
      ensures r.server.None? ==> currentServerAddress == old(currentServerAddress) && nextServerIndex == old(nextServerIndex)
      ensures r.server.Some? ==> r.server.value == currentServerAddress && r.server.value in randomServers
      ensures r.attempts <= if randomServers == [] then 1 else 2 * |randomServers|
    {
      if randomServers == [] {
        r := Dial(probe, accepts, [""]);
      } else {
        ghost var order := FromCurrent(randomServers, nextServerIndex);
        assert OrderIs(order, randomServers, nextServerIndex) by {
          forall i | 0 <= i < |order| {
            FromCurrentAt(randomServers, nextServerIndex, i);
          }
        }
        TwoPassesChoose(servers, probe, accepts, order);
        DialledBounds(servers, probe, accepts, order);
        r := Dial(probe, accepts, order);
      }
    }

    /** The loop of dialContext; `order` is the order in which the rotation visits the servers. */
    method Dial(probe: string -> bool, accepts: string -> bool, ghost order: seq<string>) returns (r: DialResult)
      requires Rotating() && OrderIs(order, randomServers, nextServerIndex)
      modifies `currentServerAddress, `nextServerIndex
      ensures Rotating()
      ensures r == if randomServers == [] then DialResult(None, 1) else DialFrom(servers, probe, accepts, order, 0, false)
      ensures r.server.None? ==> currentServerAddress == old(currentServerAddress) && nextServerIndex == old(nextServerIndex)
      ensures r.server.Some? ==> r.server.value == currentServerAddress
    {
      var allChecksFailed := false;
      var startIndex := nextServerIndex;
      ghost var n, first := |randomServers|, nextServerIndex;
      ghost var pos: nat := 0;
      var attempts := 0;
      while true
        invariant Rotating() && startIndex == first && pos < |order| && currentServerAddress == order[pos]
        invariant n == 0 ==> attempts == pos == 0
        invariant n > 0 ==> pos < n && nextServerIndex == IndexAt(n, first, pos)
        invariant n > 0 ==> attempts == if allChecksFailed then n + pos else pos
        invariant n > 0 ==> DialFrom(servers, probe, accepts, order, pos, allChecksFailed) == DialFrom(servers, probe, accepts, order, 0, false)
        invariant pos == 0 ==> currentServerAddress == old(currentServerAddress) && nextServerIndex == old(nextServerIndex)
        decreases !allChecksFailed, n - pos
      {
        var targetServer := currentServerAddress;
        attempts := attempts + 1;
        if (allChecksFailed || Healthy(servers, probe, targetServer)) && Accepting(servers, accepts, targetServer) {
          return DialResult(Some(targetServer), attempts);
        }
        var newServer := NextServer(targetServer);
        if newServer.None? {
          return DialResult(None, attempts);
        }
        DialFromStep(servers, probe, accepts, order, pos, allChecksFailed);
        pos := if pos + 1 == n then 0 else pos + 1;
        var maxIndex := |randomServers|;
        if startIndex > maxIndex {
          startIndex := maxIndex;
        }
        if nextServerIndex == startIndex {
          if allChecksFailed {
            return DialResult(None, attempts);
          }
          allChecksFailed := true;
        }
      }
    }
  }
}
