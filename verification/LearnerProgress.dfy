/**
 Tracking of an etcd learner (trackLearnerProgress in pkg/etcd/etcd.go): promotion, progress by raft
 applied index, and eviction of a learner that stalls.

 Times are nanoseconds.  The progress record is kept in etcd as JSON, whose timestamps have whole
 seconds, so the time of the last progress is rounded down whenever it is read back.
 */
module LearnerProgress {
  import opened Wrappers

  const SECOND := 1_000_000_000
  const LEARNER_MAX_STALL_TIME := 300 * SECOND

  datatype Member = Member(id: nat, name: string)
  datatype Progress = Progress(member: Member, raftAppliedIndex: nat, lastProgress: nat)
  datatype Outcome = Promoted | Tracked | Evicted

  /** One management tick: its time, whether promotion works, and the status of each client URL. */
  datatype Tick = Tick(now: nat, promotable: bool, statuses: seq<Option<nat>>)

  function Truncated(t: nat): nat {
    t / SECOND * SECOND
  }

  /** The applied index reported by the first reachable client URL. */
  function Reported(statuses: seq<Option<nat>>): Option<nat> {
    if statuses == [] then None else if statuses[0].Some? then statuses[0] else Reported(statuses[1..])
  }

  /** The record after the status check, before it is stored. */
  function Updated(stored: Option<Progress>, member: Member, tick: Tick): Progress {
    var progress := if stored.Some? && stored.value.member == member then stored.value else Progress(member, 0, tick.now);
    var seen := Reported(tick.statuses);
    if seen.Some? && progress.raftAppliedIndex < seen.value
    then Progress(member, seen.value, tick.now) else progress
  }

  function OutcomeOf(stored: Option<Progress>, member: Member, tick: Tick): Outcome {
    if tick.promotable then Promoted
    else if tick.now - Updated(stored, member, tick).lastProgress > LEARNER_MAX_STALL_TIME then Evicted
    else Tracked
  }

  function StoredAfter(stored: Option<Progress>, member: Member, tick: Tick): Option<Progress> {
    if OutcomeOf(stored, member, tick) == Tracked then
      var p := Updated(stored, member, tick);
      Some(p.(lastProgress := Truncated(p.lastProgress)))
    else stored
  }

  class Tracker {
    /** The record stored in etcd. */
    var stored: Option<Progress>

    constructor ()
      ensures stored == None
    {
      stored := None;
    }

    method TrackLearnerProgress(member: Member, tick: Tick) returns (outcome: Outcome)
      modifies this
      ensures outcome == OutcomeOf(old(stored), member, tick)
      ensures stored == StoredAfter(old(stored), member, tick)
      ensures tick.promotable ==> outcome == Promoted && stored == old(stored)
      ensures !tick.promotable ==> outcome in {Tracked, Evicted}
    {
      if tick.promotable {
        return Promoted;
      }
      var progress := if stored.Some? then stored.value else Progress(Member(0, ""), 0, 0);
      if stored.None? || progress.member != member {
        progress := Progress(member, 0, tick.now);
      }
      ghost var before := progress;
      var i := 0;
      while i < |tick.statuses|
        invariant 0 <= i <= |tick.statuses| && progress == before
        invariant Reported(tick.statuses[i..]) == Reported(tick.statuses)
      {
        assert tick.statuses[i..][1..] == tick.statuses[i + 1..];
        if tick.statuses[i].Some? {
          if progress.raftAppliedIndex < tick.statuses[i].value {
            progress := progress.(raftAppliedIndex := tick.statuses[i].value, lastProgress := tick.now);
          }
          break;
        }
        i := i + 1;
      }
      assert progress == Updated(stored, member, tick);
      if tick.now - progress.lastProgress > LEARNER_MAX_STALL_TIME {
        return Evicted;
      }
      stored := Some(progress.(lastProgress := Truncated(progress.lastProgress)));
      return Tracked;
    }
  }

  // ---------- Runs, judged by what the learner showed ----------

  function IndexShown(tick: Tick): nat {
    var r := Reported(tick.statuses);
    if r.Some? then r.value else 0
  }

  function HighestShown(ticks: seq<Tick>): nat {
    if ticks == [] then 0 else
      var before := HighestShown(ticks[..|ticks| - 1]);
      var last := IndexShown(ticks[|ticks| - 1]);
      if last > before then last else before
  }

  /** Tick `j` showed a higher applied index than every tick before it; the first tick counts too. */
  predicate ShowsGrowth(ticks: seq<Tick>, j: nat)
    requires j < |ticks|
  {
    j == 0 || IndexShown(ticks[j]) > HighestShown(ticks[..j])
  }

  /** The last tick that showed growth. */
  function LastGrowth(ticks: seq<Tick>): (j: nat)
    requires ticks != []
    ensures j < |ticks| && ShowsGrowth(ticks, j)
    ensures forall i | j < i < |ticks| :: !ShowsGrowth(ticks, i)
  {
    var n := |ticks| - 1;
    if ShowsGrowth(ticks, n) then n else
      var j := LastGrowth(ticks[..n]);
      assert ShowsGrowth(ticks, j) by {
        GrowthInPrefix(ticks, n, j);
      }
      assert forall i | j < i < n :: !ShowsGrowth(ticks, i) by {
        forall i | j < i < n
          ensures !ShowsGrowth(ticks, i)
        {
          GrowthInPrefix(ticks, n, i);
        }
      }
      j
  }

  /** A learner that can be promoted is, however long it stalled, and otherwise it never is. */
  lemma PromotedExactlyWhen(start: Option<Progress>, member: Member, ticks: seq<Tick>)
    requires ticks != []
    ensures OutcomeAt(start, member, ticks) == Promoted <==> ticks[|ticks| - 1].promotable
  {
  }

  /** The first client URL that answers is the one that counts. */
  lemma {:induction false} ReportedIsFirst(statuses: seq<Option<nat>>, i: nat)
    requires i < |statuses| && statuses[i].Some? && forall j | 0 <= j < i :: statuses[j].None?
    ensures Reported(statuses) == statuses[i]
    decreases i
  {
    if i > 0 {
      ReportedIsFirst(statuses[1..], i - 1);
    }
  }

  lemma GrowthInPrefix(ticks: seq<Tick>, n: nat, i: nat)
    requires i < n <= |ticks|
    ensures ShowsGrowth(ticks[..n], i) == ShowsGrowth(ticks, i)
  {
    assert ticks[..n][..i] == ticks[..i];
  }

  /** The stored record after a run of ticks for one learner. */
  function RecordAfter(start: Option<Progress>, member: Member, ticks: seq<Tick>): Option<Progress> {
    if ticks == [] then start else
      StoredAfter(RecordAfter(start, member, ticks[..|ticks| - 1]), member, ticks[|ticks| - 1])
  }

  function OutcomeAt(start: Option<Progress>, member: Member, ticks: seq<Tick>): Outcome
    requires ticks != []
  {
    OutcomeOf(RecordAfter(start, member, ticks[..|ticks| - 1]), member, ticks[|ticks| - 1])
  }

  /** A sole learner whose tracking starts with the first tick, and that is tracked until the last. */
  ghost predicate IsRun(start: Option<Progress>, member: Member, ticks: seq<Tick>) {
    && ticks != [] && (start.Some? ==> start.value.member != member)
    && (forall i | 0 <= i < |ticks| :: !ticks[i].promotable)
    && (forall i, j | 0 <= i < j < |ticks| :: ticks[i].now <= ticks[j].now)
    && (forall i | 0 < i < |ticks| :: OutcomeAt(start, member, ticks[..i]) == Tracked)
  }

  lemma RunPrefix(start: Option<Progress>, member: Member, ticks: seq<Tick>, n: nat)
    requires IsRun(start, member, ticks) && 0 < n <= |ticks|
    ensures IsRun(start, member, ticks[..n])
  {
    assert forall i | 0 < i < n :: ticks[..n][..i] == ticks[..i];
  }

  /** What the record holds after all but the last tick. */
  lemma {:induction false} RecordHolds(start: Option<Progress>, member: Member, ticks: seq<Tick>)
    requires IsRun(start, member, ticks) && OutcomeAt(start, member, ticks) == Tracked
    ensures RecordAfter(start, member, ticks) ==
            Some(Progress(member, HighestShown(ticks), Truncated(ticks[LastGrowth(ticks)].now)))
    decreases |ticks|
  {
    var n := |ticks| - 1;
    if n > 0 {
      RunPrefix(start, member, ticks, n);
      assert OutcomeAt(start, member, ticks[..n]) == Tracked;
      RecordHolds(start, member, ticks[..n]);
      TruncatedTwice(ticks[LastGrowth(ticks[..n])].now);
      LastGrowthExtends(ticks);
    } else {
      assert ticks[..0] == [];
    }
  }

  lemma LastGrowthExtends(ticks: seq<Tick>)
    requires |ticks| > 1
    ensures var n := |ticks| - 1;
            LastGrowth(ticks) == if ShowsGrowth(ticks, n) then n else LastGrowth(ticks[..n])
  {
  }

  lemma TruncatedTwice(t: nat)
    ensures Truncated(Truncated(t)) == Truncated(t)
    ensures Truncated(t) <= t < Truncated(t) + SECOND
  {
    assert t / SECOND * SECOND / SECOND == t / SECOND;
  }

  /**
   MAIN: a learner is evicted at a tick exactly when its last shown growth, taken as of the start of
   its second, lies more than five minutes back.
   */
  lemma EvictedExactlyWhen(start: Option<Progress>, member: Member, ticks: seq<Tick>)
    requires IsRun(start, member, ticks)
    ensures var now := ticks[|ticks| - 1].now;
            var j := LastGrowth(ticks);
            OutcomeAt(start, member, ticks) == Evicted <==>
            j < |ticks| - 1 && now - Truncated(ticks[j].now) > LEARNER_MAX_STALL_TIME
  {
    var n := |ticks| - 1;
    if n > 0 {
      RunPrefix(start, member, ticks, n);
      RecordHolds(start, member, ticks[..n]);
      LastGrowthExtends(ticks);
    } else {
      assert ticks[..0] == [];
    }
  }

  /** Growth shown less than one second inside every five-minute window is enough to stay. */
  lemma GrowingLearnerStays(start: Option<Progress>, member: Member, ticks: seq<Tick>, j: nat)
    requires IsRun(start, member, ticks) && j < |ticks| && ShowsGrowth(ticks, j)
    requires ticks[|ticks| - 1].now - ticks[j].now <= LEARNER_MAX_STALL_TIME - SECOND
    ensures OutcomeAt(start, member, ticks) == Tracked
  {
    EvictedExactlyWhen(start, member, ticks);
    var last := LastGrowth(ticks);
    assert ticks[j].now <= ticks[last].now;
    TruncatedTwice(ticks[last].now);
  }

  /** An evicted learner had shown no growth for more than five minutes less one second. */
  lemma EvictionNeedsStall(start: Option<Progress>, member: Member, ticks: seq<Tick>)
    requires IsRun(start, member, ticks) && OutcomeAt(start, member, ticks) == Evicted
    ensures var n := |ticks| - 1;
            && n > 0 && RecordAfter(start, member, ticks[..n]).Some?
            && RecordAfter(start, member, ticks[..n]).value.member == member
            && forall j | 0 <= j < |ticks| && ShowsGrowth(ticks, j) ::
                 ticks[n].now - ticks[j].now > LEARNER_MAX_STALL_TIME - SECOND
  {
    var n := |ticks| - 1;
    EvictedExactlyWhen(start, member, ticks);
    RunPrefix(start, member, ticks, n);
    RecordHolds(start, member, ticks[..n]);
    forall j | 0 <= j < |ticks| && ShowsGrowth(ticks, j)
      ensures ticks[n].now - ticks[j].now > LEARNER_MAX_STALL_TIME - SECOND
    {
      if ticks[n].now - ticks[j].now <= LEARNER_MAX_STALL_TIME - SECOND {
        GrowingLearnerStays(start, member, ticks, j);
      }
    }
  }

  /** The rounding shows: growth 299.6 seconds ago does not save this learner. */
  lemma GrowthWithinFiveMinutesCanFail()
    ensures var m := Member(7, "node");
            var ticks := [Tick(900_000_000, false, [Some(5)]), Tick(300_500_000_000, false, [Some(5)])];
            && IsRun(None, m, ticks) && ShowsGrowth(ticks, 0)
            && ticks[1].now - ticks[0].now <= LEARNER_MAX_STALL_TIME
            && OutcomeAt(None, m, ticks) == Evicted
  {
    var m := Member(7, "node");
    var ticks := [Tick(900_000_000, false, [Some(5)]), Tick(300_500_000_000, false, [Some(5)])];
    assert ticks[..1] == [ticks[0]] && ticks[..1][..0] == [] && ticks[..0] == [];
    assert Truncated(900_000_000) == 0;
    assert Reported([Some(5)]) == Some(5);
    assert RecordAfter(None, m, ticks[..1]) == Some(Progress(m, 5, 0));
  }
}
