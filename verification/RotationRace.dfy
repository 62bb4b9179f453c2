/**
 Concurrent nextServer calls (pkg/agent/loadbalancer/servers.go).  The list is fixed while any of them
 runs, but the current server and the list index are read and written without a lock; one step is one
 such read or write of one goroutine.
 */
module RotationRace {

  type Goroutine = nat

  /** Each call reads both fields, then picks an entry and writes both back. */
  datatype Call =
    | ReadingCurrent(failed: string)
    | ReadingIndex(failed: string, current: string)
    | Choosing(failed: string, current: string, index: nat)
    | WritingCurrent(chosen: string, index: nat)
    | WritingIndex(chosen: string, index: nat)
    | Returned(result: string)
    | NoServers

  datatype State = State(random: seq<string>, current: string, index: nat, calls: map<Goroutine, Call>)

  datatype Step = Begin(g: Goroutine, failed: string) | Advance(g: Goroutine)

  predicate Enabled(st: State, step: Step) {
    match step
    case Begin(g, _) => true
    case Advance(g) => g in st.calls && !st.calls[g].Returned? && !st.calls[g].NoServers?
  }

  /** The index clamped to the list, as used to subscript it. */
  function Clamped(n: nat, index: nat): nat {
    if index >= n then 0 else index
  }

  /** The branch taken once both fields have been read. */
  function Chosen(st: State, failed: string, current: string, index: nat): Call {
    var n := |st.random|;
    if n == 0 then NoServers
    else if n == 1 || failed != current then Returned(current)
    else WritingCurrent(st.random[Clamped(n, index)], Clamped(n, index) + 1)
  }

  function Apply(st: State, step: Step): State
    requires Enabled(st, step)
  {
    match step
    case Begin(g, failed) => st.(calls := st.calls[g := ReadingCurrent(failed)])
    case Advance(g) =>
      match st.calls[g]
      case ReadingCurrent(failed) => st.(calls := st.calls[g := ReadingIndex(failed, st.current)])
      case ReadingIndex(failed, current) => st.(calls := st.calls[g := Choosing(failed, current, st.index)])
      case Choosing(failed, current, index) => st.(calls := st.calls[g := Chosen(st, failed, current, index)])
      case WritingCurrent(chosen, index) => st.(current := chosen, calls := st.calls[g := WritingIndex(chosen, index)])
      case WritingIndex(chosen, index) => st.(index := index, calls := st.calls[g := Returned(chosen)])
      case _ => st
  }

  ghost predicate IsRun(st: State, steps: seq<Step>)
    decreases |steps|
  {
    steps == [] || (Enabled(st, steps[0]) && IsRun(Apply(st, steps[0]), steps[1..]))
  }

  ghost function After(st: State, steps: seq<Step>): State
    requires IsRun(st, steps)
    decreases |steps|
  {
    if steps == [] then st else After(Apply(st, steps[0]), steps[1..])
  }

  ghost predicate CallInv(random: seq<string>, c: Call) {
    match c
    case ReadingIndex(_, current) => current in random
    case Choosing(_, current, index) => current in random && index <= |random|
    case WritingCurrent(chosen, index) => chosen in random && 1 <= index <= |random|
    case WritingIndex(chosen, index) => chosen in random && 1 <= index <= |random|
    case Returned(result) => result in random
    case NoServers => false
    case ReadingCurrent(_) => true
  }

  ghost predicate Inv(st: State) {
    && st.current in st.random && st.index <= |st.random|
    && forall g | g in st.calls :: CallInv(st.random, st.calls[g])
  }

  /** As setServers leaves it. */
  ghost predicate Initial(st: State) {
    st.random != [] && st.current == st.random[0] && st.index == 1 && st.calls == map[]
  }

  lemma {:induction false} RunKeepsInv(st: State, steps: seq<Step>)
    requires Inv(st) && IsRun(st, steps)
    ensures Inv(After(st, steps)) && After(st, steps).random == st.random
    decreases |steps|
  {
    if steps != [] {
      RunKeepsInv(Apply(st, steps[0]), steps[1..]);
    }
  }

  /**
   MAIN: under every interleaving the subscript is in range, the current server and every result are
   entries of the list, and the shared index never leaves 0..n.
   */
  lemma RaceKeepsMembership(st: State, steps: seq<Step>)
    requires Initial(st) && IsRun(st, steps)
    ensures var end := After(st, steps);
            && end.random == st.random && end.current in st.random && end.index <= |st.random|
            && (forall g | g in end.calls && end.calls[g].Choosing? :: Clamped(|st.random|, end.calls[g].index) < |st.random|)
            && (forall g | g in end.calls && end.calls[g].Returned? :: end.calls[g].result in st.random)
            && (forall g | g in end.calls :: !end.calls[g].NoServers?)
  {
    RunKeepsInv(st, steps);
    var end := After(st, steps);
    forall g | g in end.calls
      ensures CallInv(st.random, end.calls[g])
    {
    }
  }

  // ---------- What races do break ----------

  lemma {:induction false} RunsJoin(st: State, first: seq<Step>, later: seq<Step>)
    requires IsRun(st, first) && IsRun(After(st, first), later)
    ensures IsRun(st, first + later) && After(st, first + later) == After(After(st, first), later)
    decreases |first|
  {
    if first == [] {
      assert first + later == later;
    } else {
      RunsJoin(Apply(st, first[0]), first[1..], later);
      assert (first + later)[1..] == first[1..] + later;
    }
  }

  lemma StepThenRun(st: State, step: Step, rest: seq<Step>)
    requires Enabled(st, step) && IsRun(Apply(st, step), rest)
    ensures IsRun(st, [step] + rest) && After(st, [step] + rest) == After(Apply(st, step), rest)
  {
    assert ([step] + rest)[1..] == rest;
  }

  /** A call that finds its server current and has picked the next one. */
  function Reads(g: Goroutine, failed: string): seq<Step> {
    [Begin(g, failed), Advance(g), Advance(g), Advance(g)]
  }

  lemma AdvanceRuns(st: State, g: Goroutine, h: Goroutine)
    requires Enabled(st, Advance(g)) && Enabled(Apply(st, Advance(g)), Advance(h))
    ensures IsRun(st, [Advance(g), Advance(h)])
    ensures After(st, [Advance(g), Advance(h)]) == Apply(Apply(st, Advance(g)), Advance(h))
  {
    StepThenRun(Apply(st, Advance(g)), Advance(h), []);
    StepThenRun(st, Advance(g), [Advance(h)]);
    assert [Advance(g)] + [Advance(h)] == [Advance(g), Advance(h)];
  }

  lemma ReadsRun(st: State, g: Goroutine, failed: string)
    requires var begun := Apply(st, Begin(g, failed));
             && Enabled(begun, Advance(g)) && Enabled(Apply(begun, Advance(g)), Advance(g))
             && Enabled(Apply(Apply(begun, Advance(g)), Advance(g)), Advance(g))
    ensures IsRun(st, Reads(g, failed))
    ensures After(st, Reads(g, failed)) ==
            Apply(Apply(Apply(Apply(st, Begin(g, failed)), Advance(g)), Advance(g)), Advance(g))
  {
    var begun := Apply(st, Begin(g, failed));
    var three := [Advance(g), Advance(g), Advance(g)];
    AdvanceRuns(Apply(begun, Advance(g)), g, g);
    StepThenRun(begun, Advance(g), [Advance(g), Advance(g)]);
    assert [Advance(g)] + [Advance(g), Advance(g)] == three;
    StepThenRun(st, Begin(g, failed), three);
    assert [Begin(g, failed)] + three == Reads(g, failed);
  }

  /** The state with call `g` at `c`. */
  function At(st: State, g: Goroutine, c: Call): State {
    st.(calls := st.calls[g := c])
  }

  lemma AtAgain(st: State, g: Goroutine, c: Call, d: Call)
    ensures At(At(st, g, c), g, d) == At(st, g, d)
  {
    assert st.calls[g := c][g := d] == st.calls[g := d];
  }

  lemma ReadSteps(st: State, g: Goroutine)
    requires |st.random| > 1
    ensures var i := Clamped(|st.random|, st.index);
            && Apply(At(st, g, ReadingCurrent(st.current)), Advance(g)) == At(st, g, ReadingIndex(st.current, st.current))
            && Apply(At(st, g, ReadingIndex(st.current, st.current)), Advance(g)) == At(st, g, Choosing(st.current, st.current, st.index))
            && Apply(At(st, g, Choosing(st.current, st.current, st.index)), Advance(g)) == At(st, g, WritingCurrent(st.random[i], i + 1))
  {
    var i := Clamped(|st.random|, st.index);
    AtAgain(st, g, ReadingCurrent(st.current), ReadingIndex(st.current, st.current));
    AtAgain(st, g, ReadingIndex(st.current, st.current), Choosing(st.current, st.current, st.index));
    AtAgain(st, g, Choosing(st.current, st.current, st.index), WritingCurrent(st.random[i], i + 1));
  }

  lemma ReadsChoose(st: State, g: Goroutine)
    requires |st.random| > 1
    ensures IsRun(st, Reads(g, st.current))
    ensures var i := Clamped(|st.random|, st.index);
            After(st, Reads(g, st.current)) == At(st, g, WritingCurrent(st.random[i], i + 1))
  {
    ReadSteps(st, g);
    assert Apply(st, Begin(g, st.current)) == At(st, g, ReadingCurrent(st.current));
    ReadsRun(st, g, st.current);
  }

  lemma AdvanceRunsOnce(st: State, g: Goroutine)
    requires Enabled(st, Advance(g))
    ensures IsRun(st, [Advance(g)]) && After(st, [Advance(g)]) == Apply(st, Advance(g))
  {
    StepThenRun(st, Advance(g), []);
  }

  ghost predicate AllReturned(st: State) {
    forall g | g in st.calls :: st.calls[g].Returned?
  }

  /** The index points just behind the current server. */
  predicate Together(st: State) {
    1 <= st.index <= |st.random| && st.random[st.index - 1] == st.current
  }

  /**
   Call 0 writes the new current server, and call 1 reads it with the old index.  Once call 0 is done,
   call 2 picks the entry after that, and its writes go around those of call 1.
   */
  lemma IndexAndCurrentCanPart(st: State) returns (steps: seq<Step>)
    requires Initial(st) && |st.random| >= 2 && st.random[1] != st.random[Clamped(|st.random|, 2)]
    ensures IsRun(st, steps) && AllReturned(After(st, steps)) && !Together(After(st, steps))
  {
    var n, b := |st.random|, st.random[1];
    steps := Reads(0, st.current);
    ReadsChoose(st, 0);
    var s1 := After(st, steps);
    AdvanceRunsOnce(s1, 0);
    RunsJoin(st, steps, [Advance(0)]);
    steps := steps + [Advance(0)];
    var s2 := After(st, steps);
    assert s2.current == b && s2.index == 1;
    ReadsChoose(s2, 1);
    RunsJoin(st, steps, Reads(1, b));
    steps := steps + Reads(1, b);
    var s3 := After(st, steps);
    AdvanceRunsOnce(s3, 0);
    RunsJoin(st, steps, [Advance(0)]);
    steps := steps + [Advance(0)];
    var s4 := After(st, steps);
    assert s4.calls == map[0 := Returned(b), 1 := WritingCurrent(b, 2)] && s4.current == b && s4.index == 2;
    var rest := PartingEnd(s4);
    RunsJoin(st, steps, rest);
    steps := steps + rest;
  }

  /** The second half: call 1 still has to write the second entry, call 2 comes in between. */
  lemma PartingEnd(st: State) returns (steps: seq<Step>)
    requires |st.random| >= 2 && st.random[1] != st.random[Clamped(|st.random|, 2)]
    requires st.current == st.random[1] && st.index == 2
    requires st.calls == map[0 := Returned(st.random[1]), 1 := WritingCurrent(st.random[1], 2)]
    ensures IsRun(st, steps) && AllReturned(After(st, steps)) && !Together(After(st, steps))
  {
    var i := Clamped(|st.random|, 2);
    steps := Reads(2, st.current);
    ReadsChoose(st, 2);
    var s1 := After(st, steps);
    AdvanceRuns(s1, 2, 1);
    RunsJoin(st, steps, [Advance(2), Advance(1)]);
    steps := steps + [Advance(2), Advance(1)];
    var s2 := After(st, steps);
    AdvanceRuns(s2, 1, 2);
    RunsJoin(st, steps, [Advance(1), Advance(2)]);
    steps := steps + [Advance(1), Advance(2)];
    assert After(st, steps).current == st.random[1] && After(st, steps).index == i + 1;
  }

  /** Calls on a list of one entry write nothing. */
  lemma {:induction false} SingleKeepsStill(st: State, steps: seq<Step>)
    requires |st.random| == 1 && IsRun(st, steps)
    requires forall g | g in st.calls :: !st.calls[g].WritingCurrent? && !st.calls[g].WritingIndex?
    ensures var end := After(st, steps); end.random == st.random && end.current == st.current && end.index == st.index
    decreases |steps|
  {
    if steps != [] {
      SingleKeepsStill(Apply(st, steps[0]), steps[1..]);
    }
  }

  /**
   MAIN: setServers leaves a list of different entries.  Whenever all calls have returned the index
   points just behind the current server, in every run, exactly when the list has one entry.
   */
  lemma StayTogetherExactlyWhen(st: State)
    requires Initial(st) && forall i, j | 0 <= i < j < |st.random| :: st.random[i] != st.random[j]
    ensures (forall steps | IsRun(st, steps) && AllReturned(After(st, steps)) :: Together(After(st, steps))) <==> |st.random| == 1
  {
    if |st.random| == 1 {
      forall steps | IsRun(st, steps)
        ensures Together(After(st, steps))
      {
        SingleKeepsStill(st, steps);
      }
    } else {
      var steps := IndexAndCurrentCanPart(st);
    }
  }
}
