/** The scheduler's promises over whole runs, and why every run ends. */
module ReplayRuns {
  import opened Options
  import opened ReplayModel
  import opened ReplaySafety

  /** The labels can be taken in turn from s. */
  predicate Runs(plan: Plan, s: State, labels: seq<Label>)
    requires InRange(plan, s)
    decreases |labels|
  {
    labels == [] ||
    (&& Enabled(plan, s, labels[0])
     && InRange(plan, Step(plan, s, labels[0]))
     && Runs(plan, Step(plan, s, labels[0]), labels[1..]))
  }

  function RunTo(plan: Plan, s: State, labels: seq<Label>): State
    requires InRange(plan, s) && Runs(plan, s, labels)
    decreases |labels|
  {
    if labels == [] then s else RunTo(plan, Step(plan, s, labels[0]), labels[1..])
  }

  // The cap.

  lemma StepWithinCap(plan: Plan, s: State, l: Label)
    requires Safe(plan, s) && Enabled(plan, s, l) && HasCapacity(plan, s, 0)
    ensures InRange(plan, s) && HasCapacity(plan, Step(plan, s, l), 0)
  {
    hide Kept, Parked, Due, Exits, Await, Picked, ThinkBefore, Round;
    KeptFits(plan, s);
    var t := Step(plan, s, l);
    if l.LResolve? {
      assert Running(t) == Running(s) - {l.task.segment};
      if l.task.segment in Running(s) { assert |Running(t)| == |Running(s)| - 1; }
          else { assert Running(t) == Running(s); }
    } else if l.LRound? {
      RoundWithinCap(plan, s, l.later);
    } else {
      assert Running(t) == Running(s);
    }
  }

  lemma RoundWithinCap(plan: Plan, s: State, later: real)
    requires Kept(plan, s) && s.pc.Head? && HasCapacity(plan, s, 0)
    ensures Fits(plan, s) && HasCapacity(plan, Round(plan, s, later), 0)
  {
    hide Kept, Due, Exits, Await, Picked;
    KeptFits(plan, s);
    if Exits(plan, s) {
      assert Running(Round(plan, s, later)) == Running(s);
    } else {
      NeverPassedOver(plan, s);
      StartAllKeeps(plan, s, Picked(plan, s));
      StartAllFrame(s, Picked(plan, s));
      var begun := StartAll(s, Picked(plan, s));
      KeptFits(plan, begun);
      AwaitShape(plan, begun.(now := begun.now + later));
      assert Running(Round(plan, s, later)) == Running(begun);
    }
  }

  // Virtual time.

  /**
   Virtual time never goes back, and idle time is skipped only with nothing in
   flight, landing exactly on the earliest time anything is waited for.
   */
  lemma StepVirtualTime(plan: Plan, s: State, l: Label)
    requires Safe(plan, s) && Enabled(plan, s, l)
    ensures InRange(plan, s)
    ensures var t := Step(plan, s, l);
            && VirtualNow(s) <= VirtualNow(t)
            && (t.skipped != s.skipped ==>
                  && l.LRound? && plan.idleSkipping && t.inFlight == map[] && t.pc.Head?
                  && Fits(plan, t)
                  && (exists i | 0 <= i < |t.segments| :: Waiting(plan, t, i) && t.segments[i].dueAt == VirtualNow(t))
                  && (forall i | 0 <= i < |t.segments| && Waiting(plan, t, i) :: VirtualNow(t) <= t.segments[i].dueAt))
  {
    hide Kept, Due, Exits, Await, Picked, Parked;
    KeptFits(plan, s);
    if l.LRound? && !Exits(plan, s) {
      NeverPassedOver(plan, s);
      StartAllFrame(s, Picked(plan, s));
      var begun := StartAll(s, Picked(plan, s));
      AwaitVirtualTime(plan, begun.(now := begun.now + l.later));
    }
  }

  lemma AwaitVirtualTime(plan: Plan, s: State)
    requires Fits(plan, s) && s.pc.Head?
    ensures var t := Await(plan, s);
            && VirtualNow(s) <= VirtualNow(t) && t == s.(skipped := t.skipped, pc := t.pc)
            && (t.skipped != s.skipped ==>
                  && plan.idleSkipping && t.inFlight == map[] && t.pc.Head?
                  && (exists i | 0 <= i < |t.segments| :: Waiting(plan, t, i) && t.segments[i].dueAt == VirtualNow(t))
                  && (forall i | 0 <= i < |t.segments| && Waiting(plan, t, i) :: VirtualNow(t) <= t.segments[i].dueAt))
  {
    hide HasCapacity, NextDue;
    NextDueShape(plan, s, |s.segments|);
    var t := Await(plan, s);
    assert forall i :: Waiting(plan, t, i) == Waiting(plan, s, i);
  }

  // Stopping.

  /** The loop is over. */
  predicate HasLeft(s: State) { s.pc.Draining? || s.pc.Returned? || s.pc.Failed? || s.pc.Canceled? }

  /** A request goes out only from a loop head that sees neither a failure nor an abort. */
  lemma StepStartsOnlyLive(plan: Plan, s: State, l: Label)
    requires Safe(plan, s) && Enabled(plan, s, l)
    ensures InRange(plan, s)
    ensures var t := Step(plan, s, l);
            && (t.starts != s.starts ==> l.LRound? && s.failure.None? && !s.aborted && !HasLeft(s))
            && (IsLasting(s.failure) ==> t.failure == s.failure) && (s.aborted ==> t.aborted)
            && (HasLeft(s) ==> HasLeft(t))
  {
    hide Kept, Due;
    KeptFits(plan, s);
    if l.LRound? && !Exits(plan, s) {
      StartAllFrame2(plan, s);
    }
  }

  lemma StartAllFrame2(plan: Plan, s: State)
    requires Kept(plan, s) && s.pc.Head?
    ensures Fits(plan, s) && AllBelow(Picked(plan, s), |s.segments|)
    ensures var t := StartAll(s, Picked(plan, s));
            t.failure == s.failure && t.aborted == s.aborted && t.pc == s.pc && Fits(plan, t)
  {
    hide Kept, Due;
    KeptFits(plan, s);
    NeverPassedOver(plan, s);
    StartAllFrame(s, Picked(plan, s));
  }

  /** After a lasting failure, an abort or the end of the loop nothing more is sent, however the run goes on. */
  lemma {:induction false} NothingStartsAfterStop(plan: Plan, s: State, labels: seq<Label>)
    requires Safe(plan, s) && InRange(plan, s) && Runs(plan, s, labels)
    requires IsLasting(s.failure) || s.aborted || HasLeft(s)
    ensures RunTo(plan, s, labels).starts == s.starts
    decreases |labels|
  {
    hide Safe, Step, Enabled;
    if labels != [] {
      StepSafe(plan, s, labels[0]);
      StepStartsOnlyLive(plan, s, labels[0]);
      NothingStartsAfterStop(plan, Step(plan, s, labels[0]), labels[1..]);
    }
  }

  /** A loop head that sees any failure, or an abort, is the last one: nothing is sent from there on. */
  lemma NothingStartsOnceSeen(plan: Plan, s: State, labels: seq<Label>)
    requires Safe(plan, s) && InRange(plan, s) && Runs(plan, s, labels)
    requires labels != [] && labels[0].LRound? && (s.failure.Some? || s.aborted)
    ensures RunTo(plan, s, labels).starts == s.starts
  {
    hide Safe;
    StepSafe(plan, s, labels[0]);
    NothingStartsAfterStop(plan, Step(plan, s, labels[0]), labels[1..]);
  }

  /** Every record of every segment has been sent once and completed once, in order. */
  predicate AllDone(plan: Plan, s: State)
    requires Fits(plan, s)
  {
    forall i | 0 <= i < |s.segments| ::
      RecordsOf(s.starts, i) == Upto(Records(plan, i)) && RecordsOf(s.completions, i) == Upto(Records(plan, i))
  }

  lemma RemainingOrDone(plan: Plan, s: State)
    requires Kept(plan, s)
    ensures Fits(plan, s) && (AllDone(plan, s) <==> !Remaining(plan, s))
    ensures !Remaining(plan, s) ==> s.rejected == {}
  {
    if Remaining(plan, s) {
      var i :| 0 <= i < |s.segments| && HasRecords(plan, s, i);
      assert SegmentKept(plan, s, i);
      assert |Upto(s.segments[i].next)| < |Upto(Records(plan, i))|;
    } else {
      forall i | 0 <= i < |s.segments|
        ensures RecordsOf(s.starts, i) == Upto(Records(plan, i))
            && RecordsOf(s.completions, i) == Upto(Records(plan, i))
        ensures !s.segments[i].running
      {
        assert SegmentKept(plan, s, i) && !HasRecords(plan, s, i);
      }
      assert forall task <- s.rejected :: IsRunning(s, task);
    }
  }

  /**
   A normal return with no abort: everything was sent and completed exactly once,
   if and only if no request was rejected with null before any lasting failure. Such
   a rejection is lost by `failure ??= error`.
   */
  lemma NormalReturn(plan: Plan, s: State)
    requires Safe(plan, s) && s.pc.Returned? && !s.aborted
    ensures Fits(plan, s) && (AllDone(plan, s) <==> !s.nullRejection)
  {
    KeptFits(plan, s);
    RemainingOrDone(plan, s);
    RejectedShows(plan, s);
  }

  const LOST_PLAN := Plan([Segment(0.0, [None])], RecordedArrival, RecordedThink, false)

  const LOST_TASK := Task(0, 0)

  lemma LostPick(s: State)
    requires s == Init(LOST_PLAN, 0.0, false)
    ensures !Exits(LOST_PLAN, s) && Picked(LOST_PLAN, s) == [0]
  {
    assert HasRecords(LOST_PLAN, s, 0) && Due(LOST_PLAN, s, 0);
    assert DueOrder(LOST_PLAN, s, 0) == [] && Insert(s, [], 0) == [0];
  }

  lemma LostStart(s: State)
    requires s == Init(LOST_PLAN, 0.0, false)
    ensures StartAll(s, [0]) == s.(segments := [SegmentState(0, 0.0, true)],
                                   inFlight := map[LOST_TASK := Sending],
                                   starts := [Record(LOST_TASK, 0.0)])
  {
    var picked: seq<nat> := [0];
    assert picked[..|picked| - 1] == [] && StartAll(s, picked[..|picked| - 1]) == s;
  }

  /** The first round sends the only request. */
  lemma LostFirstRound(s: State)
    requires s == Init(LOST_PLAN, 0.0, false)
    ensures Round(LOST_PLAN, s, 0.0) == s.(segments := [SegmentState(0, 0.0, true)],
                                          inFlight := map[LOST_TASK := Sending],
                                          pc := Racing({LOST_TASK}, None),
                                          starts := [Record(LOST_TASK, 0.0)])
  {
    hide NextDue, StartAll, Picked, Exits;
    LostPick(s);
    LostStart(s);
    var begun := StartAll(s, [0]);
    var read := begun.(now := begun.now + 0.0);
    assert !Waiting(LOST_PLAN, read, 0);
    NextDueShape(LOST_PLAN, read, 1);
    assert begun.inFlight.Keys == {LOST_TASK};
    assert LOST_TASK in begun.inFlight;
  }

  /** A round that finds the request gone and its segment still marked running breaks out of the loop. */
  lemma LostLastRound(s: State)
    requires s.segments == [SegmentState(0, 0.0, true)] && s.inFlight == map[] && s.pc.Head? && s.failure.None?
        && !s.aborted
    ensures Round(LOST_PLAN, s, 0.0) == s.(pc := Draining)
  {
    assert HasRecords(LOST_PLAN, s, 0) && !Due(LOST_PLAN, s, 0);
    assert DueOrder(LOST_PLAN, s, 0) == [] && DueOrder(LOST_PLAN, s, 1) == [];
    var read := s.(now := s.now + 0.0);
    assert !Waiting(LOST_PLAN, read, 0) && NextDue(LOST_PLAN, read, 0) == None;
    assert read == s;
  }

  /** A single request rejected with null: the schedule returns normally, and nothing was completed. */
  lemma NullRejectionIsLost()
    ensures var labels := [LRound(0.0), LReject(LOST_TASK, None), LLeave(LOST_TASK), LRound(0.0), LFinish];
            var s := Init(LOST_PLAN, 0.0, false);
            && InRange(LOST_PLAN, s) && Runs(LOST_PLAN, s, labels)
            && RunTo(LOST_PLAN, s, labels).pc.Returned? && RunTo(LOST_PLAN, s, labels).completions == []
  {
    hide Round, Picked, StartAll, Await, Exits;
    var l1, l2, l3, l4, l5 := LRound(0.0), LReject(LOST_TASK, None), LLeave(LOST_TASK), LRound(0.0), LFinish;
    var s0 := Init(LOST_PLAN, 0.0, false);
    LostFirstRound(s0);
    var s1 := Step(LOST_PLAN, s0, l1);
    var s2 := Step(LOST_PLAN, s1, l2);
    var s3 := Step(LOST_PLAN, s2, l3);
    assert s3.inFlight == map[];
    LostLastRound(s3);
    var s4 := Step(LOST_PLAN, s3, l4);
    var s5 := Step(LOST_PLAN, s4, l5);
    RunsOne(LOST_PLAN, s4, l5, []);
    RunsOne(LOST_PLAN, s3, l4, [l5]);
    RunsOne(LOST_PLAN, s2, l3, [l4, l5]);
    RunsOne(LOST_PLAN, s1, l2, [l3, l4, l5]);
    RunsOne(LOST_PLAN, s0, l1, [l2, l3, l4, l5]);
    assert [l1] + [l2, l3, l4, l5] == [l1, l2, l3, l4, l5] && [l2] + [l3, l4, l5] == [l2, l3, l4, l5];
    assert [l3] + [l4, l5] == [l3, l4, l5] && [l4] + [l5] == [l4, l5] && [l5] + [] == [l5];
  }

  lemma RunsOne(plan: Plan, s: State, l: Label, more: seq<Label>)
    requires InRange(plan, s) && Enabled(plan, s, l) && InRange(plan, Step(plan, s, l))
    requires Runs(plan, Step(plan, s, l), more)
    ensures Runs(plan, s, [l] + more) && RunTo(plan, s, [l] + more) == RunTo(plan, Step(plan, s, l), more)
  {
    assert ([l] + more)[1..] == more;
  }

  // Over whole runs.

  function SendingTasks(s: State): set<Task> {
    set task | task in s.inFlight && s.inFlight[task].Sending?
  }

  lemma {:induction false} RunSafe(plan: Plan, s: State, labels: seq<Label>)
    requires Safe(plan, s) && InRange(plan, s) && Runs(plan, s, labels)
    ensures Safe(plan, RunTo(plan, s, labels))
    ensures HasCapacity(plan, s, 0) ==> HasCapacity(plan, RunTo(plan, s, labels), 0)
    decreases |labels|
  {
    hide Safe, Step, Enabled, HasCapacity;
    if labels != [] {
      StepSafe(plan, s, labels[0]);
      if HasCapacity(plan, s, 0) { StepWithinCap(plan, s, labels[0]); }
      RunSafe(plan, Step(plan, s, labels[0]), labels[1..]);
    }
  }

  /**
   What holds at every reachable state: each segment has at most one request being
   sent, its records went out as 0, 1, 2, … without skip or repeat, none before its
   due time, and no more segments are running than the cap allows.
   */
  lemma ReachableKept(plan: Plan, now: real, aborted: bool, labels: seq<Label>)
    requires Cap(plan).Some? ==> Cap(plan).value >= 0
    requires InRange(plan, Init(plan, now, aborted)) && Runs(plan, Init(plan, now, aborted), labels)
    ensures var s := RunTo(plan, Init(plan, now, aborted), labels);
            && Fits(plan, s)
            && HasCapacity(plan, s, 0)
            && |SendingTasks(s)| <= |Running(s)|
            && (forall a, b :: a in SendingTasks(s) && b in SendingTasks(s) && a.segment == b.segment ==> a == b)
            && (forall i | 0 <= i < |s.segments| :: RecordsOf(s.starts, i) == Upto(StartedCount(s, i)))
            && (forall k | 0 <= k < |s.starts| :: OnTime(plan, s, s.starts[k]))
  {
    hide Runs, RunTo, Kept, Parked, RecordsOf, OnTime;
    InitSafe(plan, now, aborted);
    assert Running(Init(plan, now, aborted)) == {};
    RunSafe(plan, Init(plan, now, aborted), labels);
    var s := RunTo(plan, Init(plan, now, aborted), labels);
    KeptShows(plan, s);
    SendingAtMostRunning(s);
  }

  lemma KeptShows(plan: Plan, s: State)
    requires Kept(plan, s)
    ensures Fits(plan, s)
    ensures forall task <- SendingTasks(s) :: IsRunning(s, task)
    ensures forall i | 0 <= i < |s.segments| :: RecordsOf(s.starts, i) == Upto(StartedCount(s, i))
    ensures forall k | 0 <= k < |s.starts| :: OnTime(plan, s, s.starts[k])
  {
    forall i | 0 <= i < |s.segments| ensures RecordsOf(s.starts, i) == Upto(StartedCount(s, i)) {
      assert SegmentKept(plan, s, i);
    }
  }

  lemma SendingAtMostRunning(s: State)
    requires forall task <- SendingTasks(s) :: IsRunning(s, task)
    ensures |SendingTasks(s)| <= |Running(s)|
  {
    var running := Running(s);
    var tasks := set i | i in running :: Task(i, s.segments[i].next);
    assert SendingTasks(s) <= tasks;
    ImageBelow(s, running);
    assert tasks == SendingTasks(s) + (tasks - SendingTasks(s));
  }

  lemma {:induction false} ImageBelow(s: State, running: set<nat>)
    requires forall i <- running :: i < |s.segments|
    ensures |set i | i in running :: Task(i, s.segments[i].next)| <= |running|
    decreases |running|
  {
    var tasks := set i | i in running :: Task(i, s.segments[i].next);
    if tasks != {} {
      var task :| task in tasks;
      var rest := running - {task.segment};
      ImageBelow(s, rest);
      assert tasks == (set i | i in rest :: Task(i, s.segments[i].next)) + {task};
    }
  }

  /** `NormalReturn` over whole runs: any schedule that returns normally, from any start. */
  lemma ReturnedRun(plan: Plan, now: real, aborted: bool, labels: seq<Label>)
    requires Cap(plan).Some? ==> Cap(plan).value >= 0
    requires InRange(plan, Init(plan, now, aborted)) && Runs(plan, Init(plan, now, aborted), labels)
    ensures var s := RunTo(plan, Init(plan, now, aborted), labels);
            && Fits(plan, s)
            && (s.pc.Returned? && !s.aborted ==> (AllDone(plan, s) <==> !s.nullRejection))
  {
    hide Runs, RunTo, Kept, Parked, AllDone;
    InitSafe(plan, now, aborted);
    assert Running(Init(plan, now, aborted)) == {};
    RunSafe(plan, Init(plan, now, aborted), labels);
    var s := RunTo(plan, Init(plan, now, aborted), labels);
    KeptFits(plan, s);
    if s.pc.Returned? && !s.aborted {
      NormalReturn(plan, s);
    }
  }
}
