/**
 The warm-pool allocator (pkg/sandboxmatrix/controller.go): how many sandbox pods fit, what each pool
 aims for, and the loop over pools that share one capacity.  Integers are signed 64-bit in the source;
 arithmetic that can leave that range wraps explicitly.
 */
module WarmPool {

  const TWO_63 := 0x8000_0000_0000_0000
  const TWO_64 := 0x1_0000_0000_0000_0000

  function Wrap64(x: int): (r: int)
    ensures -TWO_63 <= r < TWO_63
    ensures -TWO_63 <= x < TWO_63 ==> r == x
  {
    (x + TWO_63) % TWO_64 - TWO_63
  }

  /** Division that truncates toward zero. */
  function TruncDiv(a: int, b: int): int
    requires b > 0
  {
    if a >= 0 then a / b else -((-a) / b)
  }

  function Min(a: int, b: int): int { if a <= b then a else b }

  function Max(a: int, b: int): int { if a >= b then a else b }

  // ---------- Capacity ----------

  function CapacityFor(total: int, divisor: int): int {
    if total <= 0 || divisor <= 0 then 0 else TruncDiv(TruncDiv(Wrap64(total * 9), 10), divisor)
  }

  function TighterCapacity(a: int, b: int): int {
    if a == 0 then b else if b == 0 || a < b then a else b
  }

  datatype Node = Node(mem: int, cpu: int)

  function ExactMem(nodes: seq<Node>): int
    decreases |nodes|
  {
    if nodes == [] then 0 else ExactMem(nodes[..|nodes| - 1]) + nodes[|nodes| - 1].mem
  }

  function ExactCpu(nodes: seq<Node>): int
    decreases |nodes|
  {
    if nodes == [] then 0 else ExactCpu(nodes[..|nodes| - 1]) + nodes[|nodes| - 1].cpu
  }

  /** Both totals count every node once, in any grouping. */
  lemma {:induction false} TotalsAdd(nodes: seq<Node>, more: seq<Node>, node: Node)
    ensures ExactMem(nodes + more) == ExactMem(nodes) + ExactMem(more) && ExactMem([node]) == node.mem
    ensures ExactCpu(nodes + more) == ExactCpu(nodes) + ExactCpu(more) && ExactCpu([node]) == node.cpu
    decreases |more|
  {
    assert [node][..0] == [];
    if more == [] {
      assert nodes + more == nodes;
    } else {
      var n := |more| - 1;
      TotalsAdd(nodes, more[..n], node);
      assert (nodes + more)[..|nodes| + n] == nodes + more[..n];
    }
  }

  lemma WrapAdds(a: int, b: int)
    ensures Wrap64(Wrap64(a) + b) == Wrap64(a + b)
  {
    var q := (a + TWO_63) / TWO_64;
    assert Wrap64(a) == a - q * TWO_64;
    WrapPeriodic(a + b, q);
  }

  lemma WrapPeriodic(x: int, q: int)
    ensures Wrap64(x - q * TWO_64) == Wrap64(x)
  {
    var y := x + TWO_63;
    assert y - q * TWO_64 == (y / TWO_64 - q) * TWO_64 + y % TWO_64;
  }

  /** computeMaxPods for listed nodes and the per-pod limits; 0 means that no limit is enforced. */
  method ComputeMaxPods(nodes: seq<Node>, perPodMem: int, perPodCpu: int) returns (n: int)
    ensures var mem, cpu := Wrap64(ExactMem(nodes)), Wrap64(ExactCpu(nodes));
            n == if nodes == [] || (mem == 0 && cpu == 0) then 0
                 else TighterCapacity(CapacityFor(mem, perPodMem), CapacityFor(cpu, perPodCpu))
  {
    if |nodes| == 0 {
      return 0;
    }
    var mem, cpu := 0, 0;
    for i := 0 to |nodes|
      invariant mem == Wrap64(ExactMem(nodes[..i])) && cpu == Wrap64(ExactCpu(nodes[..i]))
    {
      assert nodes[..i + 1][..i] == nodes[..i];
      WrapAdds(ExactMem(nodes[..i]), nodes[i].mem);
      WrapAdds(ExactCpu(nodes[..i]), nodes[i].cpu);
      mem := Wrap64(mem + nodes[i].mem);
      cpu := Wrap64(cpu + nodes[i].cpu);
    }
    assert nodes[..|nodes|] == nodes;
    if mem == 0 && cpu == 0 {
      return 0;
    }
    return TighterCapacity(CapacityFor(mem, perPodMem), CapacityFor(cpu, perPodCpu));
  }

  lemma DivAtLeast(q: int, d: int, n: int)
    requires d > 0
    ensures n <= q / d <==> n * d <= q
  {
    var k, r := q / d, q % d;
    assert q == k * d + r && 0 <= r < d;
    if n <= k {
      assert n * d <= k * d;
    } else {
      assert n * d >= (k + 1) * d == k * d + d;
    }
  }

  /** Short of overflow, the capacity is the largest number of pods within 90% of the total. */
  lemma CapacityIsLargest(total: int, divisor: int, n: int)
    requires 0 < total && 0 < divisor && total * 9 < TWO_63
    ensures n <= CapacityFor(total, divisor) <==> n * divisor * 10 <= total * 9
    ensures CapacityFor(total, divisor) >= 0
  {
    DivAtLeast(total * 9, 10, n * divisor);
    DivAtLeast(total * 9 / 10, divisor, n);
    DivAtLeast(total * 9 / 10, divisor, 0);
  }

  /**
   The combined bound is the tighter one exactly when both resources admit a pod, or neither does:
   a resource that admits none counts as unknown.
   */
  lemma TighterExactlyWhen(a: int, b: int)
    requires a >= 0 && b >= 0
    ensures TighterCapacity(a, b) == Min(a, b) <==> (a == 0 <==> b == 0)
  {
  }

  ghost predicate Fits(n: int, mem: int, cpu: int, perPodMem: int, perPodCpu: int) {
    n * perPodMem * 10 <= mem * 9 && n * perPodCpu * 10 <= cpu * 9
  }

  /**
   MAIN: with totals that do not overflow, the computed number is the largest one whose pods fit 90%
   of both resources, exactly when one pod fits both or one pod fits neither.
   */
  lemma MaxPodsIsLargestExactlyWhen(mem: int, cpu: int, perPodMem: int, perPodCpu: int)
    requires 0 < mem && 0 < cpu && 0 < perPodMem && 0 < perPodCpu
    requires mem * 9 < TWO_63 && cpu * 9 < TWO_63
    ensures var cap := TighterCapacity(CapacityFor(mem, perPodMem), CapacityFor(cpu, perPodCpu));
            (forall n: int :: n <= cap <==> Fits(n, mem, cpu, perPodMem, perPodCpu)) <==>
            (perPodMem * 10 <= mem * 9 <==> perPodCpu * 10 <= cpu * 9)
  {
    var a, b := CapacityFor(mem, perPodMem), CapacityFor(cpu, perPodCpu);
    var cap := TighterCapacity(a, b);
    forall n: int
      ensures n <= Min(a, b) <==> Fits(n, mem, cpu, perPodMem, perPodCpu)
    {
      CapacityIsLargest(mem, perPodMem, n);
      CapacityIsLargest(cpu, perPodCpu, n);
    }
    CapacityIsLargest(mem, perPodMem, 1);
    CapacityIsLargest(cpu, perPodCpu, 1);
    TighterExactlyWhen(a, b);
    if cap != Min(a, b) {
      assert !(cap <= Min(a, b));
      assert !Fits(cap, mem, cpu, perPodMem, perPodCpu);
    }
  }

  // ---------- Targets ----------

  datatype Pool = Pool(size: int, minSize: int, maxSize: int)

  function AdaptiveTarget(p: Pool, boost: int): int {
    var base := if p.size <= 0 then 1 else p.size;
    if p.maxSize <= base then base else
      var lo := if p.minSize <= 0 then base else p.minSize;
      var grown := if boost > base then boost else base;
      var raised := if grown < lo then lo else grown;
      if raised > p.maxSize then p.maxSize else raised
  }

  function PoolTargetSize(configured: int, maxPods: int): int {
    var t := if configured <= 0 then 1 else configured;
    var capped := if maxPods > 0 && t > maxPods then maxPods else t;
    if capped < 1 then 1 else capped
  }

  function Target(p: Pool, boost: int, maxPods: int): int {
    PoolTargetSize(AdaptiveTarget(p, boost), maxPods)
  }

  /** A size that meets the demand, the configured size (at least one) and the minimum. */
  predicate Covers(p: Pool, boost: int, n: int) {
    n >= boost && n >= Max(p.size, 1) && n >= p.minSize
  }

  /**
   An adaptive pool aims for the least size that covers everything, if its maximum allows one, and for
   its maximum otherwise.  A pool whose maximum does not exceed its size keeps that size.
   */
  lemma AdaptiveTargetIsLeast(p: Pool, boost: int)
    ensures p.maxSize <= Max(p.size, 1) ==> AdaptiveTarget(p, boost) == Max(p.size, 1)
    ensures p.maxSize > Max(p.size, 1) ==>
              var t := AdaptiveTarget(p, boost);
              && t <= p.maxSize
              && (forall n | Covers(p, boost, n) :: t <= n)
              && (Covers(p, boost, t) <==> exists n | n <= p.maxSize :: Covers(p, boost, n))
              && (!Covers(p, boost, t) ==> t == p.maxSize)
  {
  }

  /** At most the configured size, or one if there is none, and within the cap if there is one. */
  predicate Allowed(configured: int, maxPods: int, n: int) {
    n <= Max(configured, 1) && (maxPods > 0 ==> n <= maxPods)
  }

  /** The target is the largest size that is allowed, so a configured size within the cap is the target itself. */
  lemma PoolTargetIsLargest(configured: int, maxPods: int)
    ensures var t := PoolTargetSize(configured, maxPods);
            t >= 1 && Allowed(configured, maxPods, t) && forall n | Allowed(configured, maxPods, n) :: n <= t
    ensures configured >= 1 && (maxPods <= 0 || configured <= maxPods) ==> PoolTargetSize(configured, maxPods) == configured
  {
  }

  // ---------- One pass over the pools ----------

  /** Pods with any sandbox state, and the warm ones among them. */
  class Pods {
    var total: nat
    var warm: nat

    constructor (total: nat, warm: nat)
      ensures this.total == total && this.warm == warm
    {
      this.total, this.warm := total, warm;
    }

    /** reconcileSinglePool, with every create succeeding. */
    method ReconcileSinglePool(p: Pool, boost: int, maxPods: int)
      modifies this
      ensures (total, warm) == AfterPool(old(total), old(warm), Target(p, boost, maxPods), maxPods)
    {
      var targetSize := PoolTargetSize(AdaptiveTarget(p, boost), maxPods);
      var allPods := total;
      if maxPods > 0 && allPods >= maxPods {
        return;
      }
      var gap := targetSize - warm;
      var i := 0;
      while i < gap
        invariant 0 <= i && total == old(total) + i && warm == old(warm) + i
        invariant i <= Max(gap, 0) && (maxPods > 0 ==> old(total) + i <= maxPods)
      {
        if maxPods > 0 && allPods + i + 1 > maxPods {
          break;
        }
        total, warm := total + 1, warm + 1;
        i := i + 1;
      }
    }

    /** The loop of reconcileWarmPools. */
    method ReconcilePools(pools: seq<Pool>, boost: int, maxPods: int)
      modifies this
      ensures var created := Created(old(total), old(warm), Targets(pools, boost, maxPods), maxPods);
              total == old(total) + created && warm == old(warm) + created
    {
      ghost var targets := Targets(pools, boost, maxPods);
      for i := 0 to |pools|
        invariant AfterTargets(total, warm, targets[i..], maxPods) == AfterTargets(old(total), old(warm), targets, maxPods)
      {
        assert targets[i..][1..] == targets[i + 1..];
        ReconcileSinglePool(pools[i], boost, maxPods);
      }
      PassCreates(old(total), old(warm), targets, maxPods);
    }
  }

  function Targets(pools: seq<Pool>, boost: int, maxPods: int): seq<int> {
    seq(|pools|, i requires 0 <= i < |pools| => Target(pools[i], boost, maxPods))
  }

  /** What a target is short of, within what the cap leaves. */
  function Shortfall(total: nat, warm: nat, target: int, maxPods: int): nat {
    var gap := Max(0, target - warm);
    if maxPods > 0 then Min(gap, Max(0, maxPods - total)) else gap
  }

  function AfterPool(total: nat, warm: nat, target: int, maxPods: int): (nat, nat) {
    var created := Shortfall(total, warm, target, maxPods);
    (total + created, warm + created)
  }

  function AfterTargets(total: nat, warm: nat, targets: seq<int>, maxPods: int): (nat, nat)
    decreases |targets|
  {
    if targets == [] then (total, warm) else
      var (t, w) := AfterPool(total, warm, targets[0], maxPods);
      AfterTargets(t, w, targets[1..], maxPods)
  }

  function Largest(targets: seq<int>): (m: int)
    requires targets != []
    ensures m in targets && forall t | t in targets :: t <= m
  {
    assert targets == [targets[0]] + targets[1..];
    if |targets| == 1 then targets[0] else Max(targets[0], Largest(targets[1..]))
  }

  /** The pods a pass creates: what the largest target is short of, within what the cap leaves. */
  function Created(total: nat, warm: nat, targets: seq<int>, maxPods: int): nat {
    if targets == [] then 0 else Shortfall(total, warm, Largest(targets), maxPods)
  }

  /** Filling up for one target and then for another is filling up for the larger. */
  lemma ShortfallsCombine(total: nat, warm: nat, a: int, b: int, maxPods: int)
    ensures var first := Shortfall(total, warm, a, maxPods);
            first + Shortfall(total + first, warm + first, b, maxPods) == Shortfall(total, warm, Max(a, b), maxPods)
  {
  }

  /** MAIN: pool after pool, a pass ends where one pool with the largest target would end. */
  lemma {:induction false} PassCreates(total: nat, warm: nat, targets: seq<int>, maxPods: int)
    ensures var created := Created(total, warm, targets, maxPods);
            AfterTargets(total, warm, targets, maxPods) == (total + created, warm + created)
    decreases |targets|
  {
    if targets != [] {
      var (t, w) := AfterPool(total, warm, targets[0], maxPods);
      PassCreates(t, w, targets[1..], maxPods);
      if |targets| > 1 {
        ShortfallsCombine(total, warm, targets[0], Largest(targets[1..]), maxPods);
      }
    }
  }

  /** MAIN: how many pods a pass creates, for any pools: the shortfall of the largest target, and no more than the cap leaves. */
  lemma PassCreatesExactly(total: nat, warm: nat, targets: seq<int>, maxPods: int, largest: int)
    requires largest in targets && forall t | t in targets :: t <= largest
    ensures var short := if largest > warm then largest - warm else 0;
            var room := if maxPods > total then maxPods - total else 0;
            var created := if maxPods > 0 && room < short then room else short;
            AfterTargets(total, warm, targets, maxPods) == (total + created, warm + created)
  {
    PassCreates(total, warm, targets, maxPods);
  }

  /** The pass never takes the total past the cap, and pool order and repetition do not matter. */
  lemma PassRespectsCapInAnyOrder(total: nat, warm: nat, pools: seq<Pool>, others: seq<Pool>, boost: int, maxPods: int)
    requires forall p :: p in pools <==> p in others
    ensures var targets := Targets(pools, boost, maxPods);
            && (maxPods > 0 ==> AfterTargets(total, warm, targets, maxPods).0 <= Max(maxPods, total))
            && AfterTargets(total, warm, targets, maxPods) == AfterTargets(total, warm, Targets(others, boost, maxPods), maxPods)
  {
    SameTargets(pools, others, boost, maxPods);
    SameTargets(others, pools, boost, maxPods);
    TargetsDecide(total, warm, Targets(pools, boost, maxPods), Targets(others, boost, maxPods), maxPods);
  }

  lemma TargetsDecide(total: nat, warm: nat, a: seq<int>, b: seq<int>, maxPods: int)
    requires (forall t | t in a :: t in b) && (forall t | t in b :: t in a)
    ensures maxPods > 0 ==> AfterTargets(total, warm, a, maxPods).0 <= Max(maxPods, total)
    ensures AfterTargets(total, warm, a, maxPods) == AfterTargets(total, warm, b, maxPods)
  {
    PassCreates(total, warm, a, maxPods);
    PassCreates(total, warm, b, maxPods);
    SameLargest(a, b);
  }

  lemma SameLargest(a: seq<int>, b: seq<int>)
    requires (forall t | t in a :: t in b) && (forall t | t in b :: t in a)
    ensures a == [] <==> b == []
    ensures a != [] ==> Largest(a) == Largest(b)
  {
    if a != [] {
      var t := a[0];
      assert t in a && t in b;
    }
    if b != [] {
      var t := b[0];
      assert t in b && t in a;
    }
  }

  lemma SameTargets(pools: seq<Pool>, others: seq<Pool>, boost: int, maxPods: int)
    requires forall p :: p in pools ==> p in others
    ensures forall t | t in Targets(pools, boost, maxPods) :: t in Targets(others, boost, maxPods)
  {
    forall t | t in Targets(pools, boost, maxPods)
      ensures t in Targets(others, boost, maxPods)
    {
      var i :| 0 <= i < |pools| && Target(pools[i], boost, maxPods) == t;
      assert pools[i] in others;
      var j :| 0 <= j < |others| && others[j] == pools[i];
      assert Targets(others, boost, maxPods)[j] == t;
    }
  }

  // ---------- Demand ----------

  const DEMAND_DECAY_WINDOW := 300_000_000_000

  class WarmDemand {
    var lastColdStarts: int
    var lastObserved: int
    var recentColdStarts: int

    constructor (now: int)
      ensures lastColdStarts == 0 && recentColdStarts == 0 && lastObserved == now
    {
      lastColdStarts, lastObserved, recentColdStarts := 0, now, 0;
    }

    /** Folds new cold starts into the estimate, and forgets it after a quiet window. */
    method Observe(now: int, coldStarts: int) returns (recent: int)
      modifies this
      ensures recent == recentColdStarts && lastColdStarts == Max(old(lastColdStarts), coldStarts)
      ensures coldStarts > old(lastColdStarts) ==>
                recentColdStarts - old(recentColdStarts) == lastColdStarts - old(lastColdStarts) && lastObserved == now
      ensures coldStarts <= old(lastColdStarts) ==>
                if now - old(lastObserved) >= 300_000_000_000 then recentColdStarts == 0 && lastObserved == now
                else recentColdStarts == old(recentColdStarts) && lastObserved == old(lastObserved)
    {
      var delta := coldStarts - lastColdStarts;
      if delta > 0 {
        recentColdStarts := recentColdStarts + delta;
        lastColdStarts := coldStarts;
        lastObserved := now;
      } else if now - lastObserved >= DEMAND_DECAY_WINDOW {
        recentColdStarts := 0;
        lastObserved := now;
      }
      recent := recentColdStarts;
    }
  }
}
