/**
 The loop that spins: a round that starts nothing and comes straight back to the loop
 head, with no time passing and nothing settling. It takes a timer that an abort has
 already ended, or a due segment that no capacity is left for.
 */
module ReplaySpinning {
  import opened Options
  import opened ReplayModel
  import opened ReplaySafety
  import opened ReplayRuns
  import opened ReplayEnding

  /** One round at once, and the wake-up that ends its wait at once, lead back to the same state. */
  predicate Spins(plan: Plan, s: State)
    requires InRange(plan, s) && s.pc.Head?
  {
    var t := Round(plan, s, 0.0);
    t == s || (Enabled(plan, t, LWake) && t.(pc := Head) == s)
  }

  /** What the loop head can see: nothing to start, something to wait for, and a wait that is no wait. */
  predicate CanSpin(plan: Plan, s: State)
    requires Fits(plan, s)
  {
    var nextDue := NextDue(plan, s, |s.segments|);
    && !Exits(plan, s) && Picked(plan, s) == [] && nextDue.Some?
    && if s.inFlight == map[] then nextDue.value <= VirtualNow(s) || (!plan.idleSkipping && s.stopped)
       else HasCapacity(plan, s, 1) && s.stopped
  }

  lemma RoundThatStarts(plan: Plan, s: State)
    requires Fits(plan, s) && s.pc.Head? && !Exits(plan, s) && Picked(plan, s) != []
    ensures Round(plan, s, 0.0).starts != s.starts
  {
    hide Due, Exits, Picked;
    NeverPassedOver(plan, s);
    StartAllFrame(s, Picked(plan, s));
    var begun := StartAll(s, Picked(plan, s));
    AwaitShape(plan, begun.(now := begun.now + 0.0));
  }

  lemma RoundThatWaits(plan: Plan, s: State)
    requires Fits(plan, s) && s.pc.Head? && !Exits(plan, s) && Picked(plan, s) == []
    ensures Round(plan, s, 0.0) == Await(plan, s)
  {
    hide Exits, Picked, Await;
    assert s.(now := s.now + 0.0) == s;
  }

  /** A segment that is due but not picked finds no capacity. */
  lemma NothingPickedNoCapacity(plan: Plan, s: State)
    requires Fits(plan, s) && Picked(plan, s) == []
    ensures var nextDue := NextDue(plan, s, |s.segments|);
            nextDue.Some? && nextDue.value <= VirtualNow(s) ==> !HasCapacity(plan, s, 1)
  {
    hide Picked, HasCapacity;
    NeverPassedOver(plan, s);
    NextDueShape(plan, s, |s.segments|);
    var nextDue := NextDue(plan, s, |s.segments|);
    if nextDue.Some? && nextDue.value <= VirtualNow(s) {
      var i :| 0 <= i < |s.segments| && Waiting(plan, s, i) && s.segments[i].dueAt == nextDue.value;
      assert Due(plan, s, i) && i !in Picked(plan, s);
    }
  }

  /** The loop spins exactly when its head can see that it will. */
  lemma SpinsExactly(plan: Plan, s: State)
    requires InRange(plan, s) && s.pc.Head?
    ensures Spins(plan, s) <==> CanSpin(plan, s)
  {
    hide Picked, NextDue, HasCapacity;
    if Exits(plan, s) {
      assert Round(plan, s, 0.0).pc.Draining?;
    } else if Picked(plan, s) != [] {
      RoundThatStarts(plan, s);
    } else {
      RoundThatWaits(plan, s);
      NothingPickedNoCapacity(plan, s);
      AbortedExits(plan, s);
    }
  }

  lemma AbortedExits(plan: Plan, s: State)
    requires Fits(plan, s)
    ensures s.aborted ==> Exits(plan, s)
  {
  }

  /** It takes a null rejection, or a cap below one. */
  lemma SpinNeedsLoss(plan: Plan, s: State)
    requires Kept(plan, s) && InRange(plan, s) && CanSpin(plan, s)
    ensures s.nullRejection || (Cap(plan).Some? && Cap(plan).value < 1)
  {
    hide Kept, Picked, NextDue;
    RejectedShows(plan, s);
    StoppedShows(plan, s);
    NothingPickedNoCapacity(plan, s);
    if !s.nullRejection {
      assert s.failure.None? && s.rejected == {};
      NothingInFlight(plan, s);
    }
  }

  /** k turns of the spin. */
  function Turns(plan: Plan, s: State, k: nat): seq<Label>
    requires Fits(plan, s)
  {
    if k == 0 then []
    else (if Round(plan, s, 0.0) == s then [LRound(0.0)] else [LRound(0.0), LWake]) + Turns(plan, s, k - 1)
  }

  /** A state that can spin once can do so any number of times: no number bounds the steps of its runs. */
  lemma {:induction false} SpinsForever(plan: Plan, s: State, k: nat)
    requires InRange(plan, s) && s.pc.Head? && CanSpin(plan, s)
    ensures var labels := Turns(plan, s, k);
            && Runs(plan, s, labels) && RunTo(plan, s, labels) == s
            && Working(labels) >= k && forall l <- labels :: l == LRound(0.0) || l == LWake
  {
    hide CanSpin, Round, Enabled;
    if k > 0 {
      SpinsForever(plan, s, k - 1);
      var rest := Turns(plan, s, k - 1);
      SpinsExactly(plan, s);
      var t := Round(plan, s, 0.0);
      assert Enabled(plan, s, LRound(0.0)) by { RoundEnabled(plan, s); }
      if t == s {
        RunsOne(plan, s, LRound(0.0), rest);
        assert ([LRound(0.0)] + rest)[1..] == rest;
      } else {
        assert InRange(plan, t);
        RunsOne(plan, t, LWake, rest);
        RunsOne(plan, s, LRound(0.0), [LWake] + rest);
        assert [LRound(0.0), LWake] + rest == [LRound(0.0)] + ([LWake] + rest);
        assert ([LRound(0.0)] + ([LWake] + rest))[1..] == [LWake] + rest && ([LWake] + rest)[1..] == rest;
      }
    }
  }

  lemma RoundEnabled(plan: Plan, s: State)
    ensures s.pc.Head? ==> Enabled(plan, s, LRound(0.0))
  {
  }

  // From the start: two segments, the first rejected with null while the second waits.

  const SPIN_PLAN := Plan([Segment(0.0, [None]), Segment(100.0, [None])], RecordedArrival, RecordedThink, false)

  const LATER := SegmentState(0, 100.0, false)

  lemma SpinFirstRound(s: State)
    requires s == Init(SPIN_PLAN, 0.0, false)
    ensures Round(SPIN_PLAN, s, 0.0) == s.(segments := [SegmentState(0, 0.0, true), LATER],
                                           inFlight := map[LOST_TASK := Sending],
                                           pc := Racing({LOST_TASK}, Some(100.0)),
                                           starts := [Record(LOST_TASK, 0.0)])
  {
    hide NextDue, StartAll, Picked, Exits;
    SpinPick(s);
    SpinStart(s);
    var begun := StartAll(s, [0]);
    var read := begun.(now := begun.now + 0.0);
    assert !Waiting(SPIN_PLAN, read, 0) && Waiting(SPIN_PLAN, read, 1);
    NextDueShape(SPIN_PLAN, read, 2);
    assert begun.inFlight.Keys == {LOST_TASK};
    assert LOST_TASK in begun.inFlight;
  }

  lemma SpinPick(s: State)
    requires s == Init(SPIN_PLAN, 0.0, false)
    ensures !Exits(SPIN_PLAN, s) && Picked(SPIN_PLAN, s) == [0]
  {
    assert HasRecords(SPIN_PLAN, s, 0) && Due(SPIN_PLAN, s, 0) && !Due(SPIN_PLAN, s, 1);
    assert DueOrder(SPIN_PLAN, s, 0) == [] && Insert(s, [], 0) == [0] && DueOrder(SPIN_PLAN, s, 1) == [0];
  }

  lemma SpinStart(s: State)
    requires s == Init(SPIN_PLAN, 0.0, false)
    ensures StartAll(s, [0]) == s.(segments := [SegmentState(0, 0.0, true), LATER],
                                   inFlight := map[LOST_TASK := Sending],
                                   starts := [Record(LOST_TASK, 0.0)])
  {
    var picked: seq<nat> := [0];
    assert picked[..|picked| - 1] == [] && StartAll(s, picked[..|picked| - 1]) == s;
  }

  lemma SpinReached(s: State)
    requires s.segments == [SegmentState(0, 0.0, true), LATER] && s.inFlight == map[] && s.pc.Head?
    requires s.failure.None? && !s.aborted && s.stopped && VirtualNow(s) == 0.0
    ensures InRange(SPIN_PLAN, s) && CanSpin(SPIN_PLAN, s)
  {
    assert HasRecords(SPIN_PLAN, s, 1) && Waiting(SPIN_PLAN, s, 1) && !Due(SPIN_PLAN, s, 0) && !Due(SPIN_PLAN, s, 1);
    assert DueOrder(SPIN_PLAN, s, 0) == [] && DueOrder(SPIN_PLAN, s, 1) == [] && DueOrder(SPIN_PLAN, s, 2) == [];
    NextDueShape(SPIN_PLAN, s, 2);
  }

  function SpinStartState(): State {
    var s := Init(SPIN_PLAN, 0.0, false);
    s.(segments := [SegmentState(0, 0.0, true), LATER],
       starts := [Record(LOST_TASK, 0.0)],
       stopped := true,
       rejected := {LOST_TASK},
       nullRejection := true)
  }

  const SPIN_PREFIX := [LRound(0.0), LReject(LOST_TASK, None), LLeave(LOST_TASK)]

  lemma SpinPrefix()
    ensures var s := Init(SPIN_PLAN, 0.0, false);
            && InRange(SPIN_PLAN, s) && Runs(SPIN_PLAN, s, SPIN_PREFIX)
            && RunTo(SPIN_PLAN, s, SPIN_PREFIX) == SpinStartState()
  {
    hide Round;
    var l1, l2, l3 := LRound(0.0), LReject(LOST_TASK, None), LLeave(LOST_TASK);
    var s0 := Init(SPIN_PLAN, 0.0, false);
    SpinFirstRound(s0);
    var s1 := Step(SPIN_PLAN, s0, l1);
    var s2 := Step(SPIN_PLAN, s1, l2);
    var s3 := Step(SPIN_PLAN, s2, l3);
    assert s3.inFlight == map[] && s3 == SpinStartState();
    RunsOne(SPIN_PLAN, s2, l3, []);
    RunsOne(SPIN_PLAN, s1, l2, [l3]);
    RunsOne(SPIN_PLAN, s0, l1, [l2, l3]);
    assert [l3] + [] == [l3] && [l2] + [l3] == [l2, l3] && [l1] + [l2, l3] == SPIN_PREFIX;
  }

  lemma {:induction false} RunsConcat(plan: Plan, s: State, a: seq<Label>, b: seq<Label>)
    requires InRange(plan, s) && Runs(plan, s, a) && InRange(plan, RunTo(plan, s, a))
        && Runs(plan, RunTo(plan, s, a), b)
    ensures Runs(plan, s, a + b) && RunTo(plan, s, a + b) == RunTo(plan, RunTo(plan, s, a), b)
    ensures Working(a + b) == Working(a) + Working(b)
    decreases |a|
  {
    hide Step, Enabled;
    if a == [] {
      assert a + b == b;
    } else {
      RunsConcat(plan, Step(plan, s, a[0]), a[1..], b);
      assert (a + b)[0] == a[0] && (a + b)[1..] == a[1..] + b;
    }
  }

  predicate IsSpinningRun(labels: seq<Label>, k: nat) {
    var s := Init(SPIN_PLAN, 0.0, false);
    && InRange(SPIN_PLAN, s) && Runs(SPIN_PLAN, s, labels)
    && (forall l <- labels :: !IsEnvironment(l)) && Working(labels) >= k
    && RunTo(SPIN_PLAN, s, labels).now == 0.0
  }

  /** A null rejection while another segment waits: the loop can turn as often as it likes before any time passes. */
  lemma NullRejectionSpins(k: nat)
    ensures exists labels :: IsSpinningRun(labels, k)
  {
    hide Round, CanSpin, Runs, RunTo, Init;
    SpinPrefix();
    SpinStartSpins();
    var turns := Turns(SPIN_PLAN, SpinStartState(), k);
    SpinsForever(SPIN_PLAN, SpinStartState(), k);
    RunsConcat(SPIN_PLAN, Init(SPIN_PLAN, 0.0, false), SPIN_PREFIX, turns);
    assert IsSpinningRun(SPIN_PREFIX + turns, k);
  }

  lemma SpinStartSpins()
    ensures var s := SpinStartState();
            InRange(SPIN_PLAN, s) && s.pc.Head? && CanSpin(SPIN_PLAN, s) && s.now == 0.0
  {
    SpinReached(SpinStartState());
  }
}
