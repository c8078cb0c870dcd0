/** Why every run of the scheduler ends, and when it does not. */
module ReplayEnding {
  import opened Options
  import opened ReplayModel
  import opened ReplaySafety
  import opened ReplayRuns
  import opened Numbers

  function Unstarted(plan: Plan, s: State, n: nat): int
    requires Fits(plan, s) && n <= |s.segments|
  {
    if n == 0 then 0
    else Unstarted(plan, s, n - 1) + Records(plan, n - 1) - StartedCount(s, n - 1)
  }

  lemma {:induction false} UnstartedFrame(plan: Plan, s: State, t: State, n: nat)
    requires Fits(plan, s) && Fits(plan, t) && n <= |s.segments|
    requires forall i | 0 <= i < n :: StartedCount(s, i) == StartedCount(t, i)
    ensures Unstarted(plan, s, n) == Unstarted(plan, t, n)
  {
    if n > 0 { UnstartedFrame(plan, s, t, n - 1); }
  }

  lemma {:induction false} UnstartedStart(plan: Plan, s: State, i: nat, n: nat)
    requires Fits(plan, s) && n <= |s.segments| && i < |s.segments| && !s.segments[i].running
    ensures Fits(plan, Start(s, i))
    ensures Unstarted(plan, Start(s, i), n) == Unstarted(plan, s, n) - (if i < n then 1 else 0)
  {
    if n > 0 { UnstartedStart(plan, s, i, n - 1); }
  }

  lemma {:induction false} UnstartedNat(plan: Plan, s: State, n: nat)
    requires Kept(plan, s) && n <= |s.segments|
    ensures Fits(plan, s) && Unstarted(plan, s, n) >= 0
  {
    KeptFits(plan, s);
    if n > 0 {
      UnstartedNat(plan, s, n - 1);
      assert SegmentKept(plan, s, n - 1);
    }
  }

  // Two steps for each request being sent, one for each that has only `finally` to run.
  function Weight(s: State): nat { |s.inFlight| + |SendingTasks(s)| }

  /** The next round starts a request or leaves the loop. */
  predicate Ready(plan: Plan, s: State)
    requires Fits(plan, s)
  {
    Exits(plan, s) || (HasCapacity(plan, s, 1) && exists i | 0 <= i < |s.segments| :: Due(plan, s, i))
  }

  function Rank(plan: Plan, s: State): nat
    requires Fits(plan, s)
  {
    match s.pc
    case Head => if Ready(plan, s) then 2 else 4
    case Sleeping(_) => 3
    case Racing(_, _) => 3
    case Draining => 1
    case _ => 0
  }

  function Measure(plan: Plan, s: State): int
    requires Fits(plan, s)
  {
    8 * Unstarted(plan, s, |s.segments|) + 3 * Weight(s) + Rank(plan, s)
  }

  predicate IsEnvironment(l: Label) { l.LTick? || l.LAbort? }

  // A timer is set only when its expiry lets a round start something.
  predicate TimerUseful(plan: Plan, s: State, until: real)
    requires Fits(plan, s)
  {
    && HasCapacity(plan, s, 1)
    && exists i | 0 <= i < |s.segments| :: Waiting(plan, s, i) && s.segments[i].dueAt <= until - s.origin + s.skipped
  }

  predicate Timed(plan: Plan, s: State)
    requires Fits(plan, s)
  {
    Exits(plan, s) ||
    match s.pc
    case Sleeping(until) => TimerUseful(plan, s, until)
    case Racing(_, Some(until)) => TimerUseful(plan, s, until)
    case _ => true
  }

  lemma WakeReady(plan: Plan, s: State, until: real)
    requires Kept(plan, s) && !s.nullRejection && InRange(plan, s)
    requires Exits(plan, s) || TimerUseful(plan, s, until)
    requires TimerDone(s, until)
    ensures Ready(plan, s.(pc := Head))
  {
    hide Kept;
    RejectedShows(plan, s);
    StoppedShows(plan, s);
    var t := s.(pc := Head);
    if Exits(plan, s) {
      ExitsFrame(plan, s, t);
    } else {
      var i :| 0 <= i < |s.segments| && Waiting(plan, s, i) && s.segments[i].dueAt <= until - s.origin + s.skipped;
      assert Waiting(plan, t, i) && Due(plan, t, i);
      assert Running(t) == Running(s);
    }
  }

  lemma StoppedShows(plan: Plan, s: State)
    requires Kept(plan, s)
    ensures s.stopped <==> s.rejected != {}
  {
  }

  lemma IdleHasCapacity(plan: Plan, s: State)
    requires Kept(plan, s) && s.inFlight == map[] && s.failure.None? && !s.nullRejection
    requires Cap(plan).Some? ==> Cap(plan).value >= 1
    ensures HasCapacity(plan, s, 1)
  {
    RejectedShows(plan, s);
    NothingInFlight(plan, s);
  }

  lemma SettleMeasure(plan: Plan, s: State, l: Label)
    requires Kept(plan, s) && InRange(plan, s) && (l.LResolve? || l.LReject?) && Enabled(plan, s, l)
    ensures var t := Step(plan, s, l);
            Fits(plan, t) && Measure(plan, t) < Measure(plan, s)
  {
    hide Kept, Ready;
    var t := Step(plan, s, l);
    assert IsRunning(s, l.task) by { SendingRuns(plan, s, l.task); }
    UnstartedFrame(plan, s, t, |s.segments|);
    assert t.inFlight.Keys == s.inFlight.Keys;
    assert SendingTasks(t) == SendingTasks(s) - {l.task};
    assert l.task in SendingTasks(s);
  }

  lemma SendingRuns(plan: Plan, s: State, task: Task)
    requires Kept(plan, s) && task in s.inFlight && s.inFlight[task].Sending?
    ensures IsRunning(s, task)
  {
  }

  lemma LeaveMeasure(plan: Plan, s: State, task: Task)
    requires Kept(plan, s) && InRange(plan, s) && Enabled(plan, s, LLeave(task))
    ensures var t := Leave(s, task);
            Fits(plan, t) && Measure(plan, t) < Measure(plan, s)
  {
    hide Kept, Ready;
    var t := Leave(s, task);
    UnstartedFrame(plan, s, t, |s.segments|);
    assert t.inFlight.Keys == s.inFlight.Keys - {task};
    assert SendingTasks(t) == SendingTasks(s);
  }

  lemma {:induction false} StartAllMeasure(plan: Plan, s: State, picked: seq<nat>)
    requires Fits(plan, s) && AllBelow(picked, |s.segments|) && Distinct(picked)
    requires forall j <- picked :: Due(plan, s, j)
    ensures var t := StartAll(s, picked);
            && Fits(plan, t)
            && Unstarted(plan, t, |t.segments|) == Unstarted(plan, s, |s.segments|) - |picked|
            && Weight(t) <= Weight(s) + 2 * |picked|
    decreases |picked|
  {
    hide Start;
    if picked != [] {
      var init, i := picked[..|picked| - 1], picked[|picked| - 1];
      assert picked == init + [i];
      forall j | j in init ensures Due(plan, s, j) { assert j in picked; }
      assert i in picked && i !in init;
      StartAllMeasure(plan, s, init);
      StartAllFrame(s, init);
      var u := StartAll(s, init);
      UnstartedStart(plan, u, i, |u.segments|);
      StartWeight(u, i);
    }
  }

  lemma StartWeight(s: State, i: nat)
    requires i < |s.segments|
    ensures Weight(Start(s, i)) <= Weight(s) + 2
  {
    var t, task := Start(s, i), Task(i, s.segments[i].next);
    assert t.inFlight.Keys == s.inFlight.Keys + {task};
    assert SendingTasks(t) == SendingTasks(s) + {task};
  }

  /** A round that starts nothing either finds its timer useful or is ready at once. */
  lemma AwaitUseful(plan: Plan, s: State)
    requires Kept(plan, s) && s.pc.Head? && s.failure.None? && !s.nullRejection
    requires Cap(plan).Some? ==> Cap(plan).value >= 1
    ensures Fits(plan, s) && Timed(plan, Await(plan, s))
    ensures Await(plan, s).pc.Head? ==> Ready(plan, Await(plan, s))
  {
    hide Kept, Exits;
    KeptFits(plan, s);
    NextDueShape(plan, s, |s.segments|);
    var t := Await(plan, s);
    var nextDue := NextDue(plan, s, |s.segments|);
    if s.inFlight == map[] {
      IdleHasCapacity(plan, s);
    }
    if nextDue.Some? {
      var i :| 0 <= i < |s.segments| && Waiting(plan, s, i) && s.segments[i].dueAt == nextDue.value;
      assert Waiting(plan, t, i) && t.segments[i].dueAt == nextDue.value;
      assert Running(t) == Running(s);
      if t.pc.Head? { assert Due(plan, t, i); }
    }
  }

  lemma ExitMeasure(plan: Plan, s: State, later: real)
    requires Fits(plan, s) && s.pc.Head? && Exits(plan, s)
    ensures var t := Round(plan, s, later);
            Fits(plan, t) && t.pc.Draining? && Timed(plan, t) && Measure(plan, t) < Measure(plan, s)
  {
    hide Exits, Timed;
    var t := Round(plan, s, later);
    UnstartedFrame(plan, s, t, |s.segments|);
    assert SendingTasks(t) == SendingTasks(s);
    ExitsFrame(plan, s, t);
    TimedByExit(plan, t);
  }

  // Awaiting changes no count.
  lemma AwaitMeasure(plan: Plan, s: State)
    requires Fits(plan, s) && s.pc.Head?
    ensures var t := Await(plan, s);
            && Fits(plan, t) && Unstarted(plan, t, |t.segments|) == Unstarted(plan, s, |s.segments|)
            && Weight(t) == Weight(s) && t.inFlight == s.inFlight
  {
    hide Await;
    AwaitShape(plan, s);
    var t := Await(plan, s);
    UnstartedFrame(plan, s, t, |s.segments|);
    assert SendingTasks(t) == SendingTasks(s);
  }

  // What a round that stays in the loop does to the three parts of the measure.
  lemma RoundParts(plan: Plan, s: State, later: real)
    requires Kept(plan, s) && s.pc.Head? && later >= 0.0 && Fits(plan, s) && !Exits(plan, s)
    ensures var t, k := Round(plan, s, later), |Picked(plan, s)|;
            && Fits(plan, t)
            && Unstarted(plan, t, |t.segments|) == Unstarted(plan, s, |s.segments|) - k
            && Weight(t) <= Weight(s) + 2 * k
            && (t.pc.Head? ==> k == 0)
            && (t.pc.Head? || t.pc.Sleeping? || t.pc.Racing? || t.pc.Draining?)
  {
    hide Kept, Exits, Due, Await, Weight, Unstarted, Picked;
    var picked := Picked(plan, s);
    NeverPassedOver(plan, s);
    StartAllKeeps(plan, s, picked);
    StartAllFrame(s, picked);
    StartAllMeasure(plan, s, picked);
    var begun := StartAll(s, picked);
    KeptFits(plan, begun);
    var read := begun.(now := begun.now + later);
    AwaitShape(plan, read);
    AwaitMeasure(plan, read);
    ReadMeasure(plan, begun, read);
    if Await(plan, read).pc.Head? { AwaitHead(plan, read); }
  }

  lemma RoundUseful(plan: Plan, s: State, later: real)
    requires Kept(plan, s) && s.pc.Head? && later >= 0.0 && !s.nullRejection && Fits(plan, s) && !Exits(plan, s)
    requires Cap(plan).Some? ==> Cap(plan).value >= 1
    ensures var t := Round(plan, s, later);
            Fits(plan, t) && Timed(plan, t) && (t.pc.Head? ==> Ready(plan, t))
  {
    hide Kept, Exits, Due, Await, Timed, Ready, Picked;
    var picked := Picked(plan, s);
    NeverPassedOver(plan, s);
    StartAllKeeps(plan, s, picked);
    StartAllFrame(s, picked);
    var begun := StartAll(s, picked);
    var read := begun.(now := begun.now + later);
    KeptFrame(plan, begun, read);
    LiveHasNoFailure(plan, s);
    AwaitShape(plan, read);
    AwaitUseful(plan, read);
  }

  lemma ReadMeasure(plan: Plan, s: State, t: State)
    requires Fits(plan, s) && t == s.(now := t.now)
    ensures Unstarted(plan, t, |t.segments|) == Unstarted(plan, s, |s.segments|) && Weight(t) == Weight(s)
  {
    UnstartedFrame(plan, s, t, |s.segments|);
    assert SendingTasks(t) == SendingTasks(s);
  }

  lemma AwaitHead(plan: Plan, s: State)
    requires Fits(plan, s) && Await(plan, s).pc.Head?
    ensures s.inFlight == map[]
  {
  }

  lemma RoundMeasure(plan: Plan, s: State, later: real)
    requires Kept(plan, s) && s.pc.Head? && later >= 0.0 && InRange(plan, s)
    ensures var t := Round(plan, s, later);
            && Fits(plan, t)
            && (t.pc.Head? && !Ready(plan, t) ==> Measure(plan, t) <= Measure(plan, s))
            && (!(t.pc.Head? && !Ready(plan, t)) ==> Measure(plan, t) < Measure(plan, s))
  {
    hide Kept, Exits, Round, Ready, Weight, Unstarted, Picked;
    if Exits(plan, s) {
      ExitMeasure(plan, s, later);
    } else {
      RoundParts(plan, s, later);
      if Picked(plan, s) == [] {
        NothingPickedNotReady(plan, s);
      }
    }
  }

  lemma TimedByExit(plan: Plan, s: State)
    requires Fits(plan, s) && Exits(plan, s)
    ensures Timed(plan, s)
  {
  }

  lemma LiveHasNoFailure(plan: Plan, s: State)
    requires Fits(plan, s) && !Exits(plan, s)
    ensures s.failure.None?
  {
  }

  lemma NothingPickedNotReady(plan: Plan, s: State)
    requires Fits(plan, s) && !Exits(plan, s) && Picked(plan, s) == []
    ensures !Ready(plan, s)
  {
    hide Due, Exits, Picked;
    NeverPassedOver(plan, s);
    assert forall i: nat | Due(plan, s, i) :: i !in Picked(plan, s);
  }

  lemma TimedStep(plan: Plan, s: State, l: Label)
    requires Kept(plan, s) && InRange(plan, s) && Enabled(plan, s, l) && Timed(plan, s) && !l.LRound?
    requires !Step(plan, s, l).nullRejection
    ensures Fits(plan, Step(plan, s, l)) && Timed(plan, Step(plan, s, l))
  {
    hide Kept, Exits;
    var t := Step(plan, s, l);
    if Exits(plan, s) {
      ExitsStays(plan, s, l);
    } else if l.LAbort? {
      assert Exits(plan, t) by { AbortExits(plan, t); }
    } else if t.pc == s.pc && (s.pc.Sleeping? || (s.pc.Racing? && s.pc.wakeAt.Some?)) {
      var until := if s.pc.Sleeping? then s.pc.until else s.pc.wakeAt.value;
      var i :| 0 <= i < |s.segments| && Waiting(plan, s, i) && s.segments[i].dueAt <= until - s.origin + s.skipped;
      if l.LResolve? {
        SendingRuns(plan, s, l.task);
        RunningShrinks(s, t);
      } else {
        assert Running(t) == Running(s);
      }
      assert Waiting(plan, t, i) && t.segments[i].dueAt == s.segments[i].dueAt;
    }
  }

  lemma RunningShrinks(s: State, t: State)
    requires |t.segments| == |s.segments|
    requires forall i | 0 <= i < |s.segments| :: t.segments[i].running ==> s.segments[i].running
    ensures |Running(t)| <= |Running(s)|
  {
    CardinalityBelow(Running(t), Running(s));
  }

  lemma CardinalityBelow(a: set<nat>, b: set<nat>)
    requires a <= b
    ensures |a| <= |b|
  {
    assert b == a + (b - a);
  }

  lemma AbortExits(plan: Plan, s: State)
    requires Fits(plan, s) && s.aborted
    ensures Exits(plan, s)
  {
  }

  lemma EnvironmentMeasure(plan: Plan, s: State, l: Label)
    requires Kept(plan, s) && InRange(plan, s) && Enabled(plan, s, l) && IsEnvironment(l)
    ensures Fits(plan, Step(plan, s, l)) && Measure(plan, Step(plan, s, l)) <= Measure(plan, s)
  {
    hide Kept, NextDue, Unstarted;
    var t := Step(plan, s, l);
    UnstartedFrame(plan, s, t, |s.segments|);
    assert SendingTasks(t) == SendingTasks(s);
    assert Running(t) == Running(s);
    if Ready(plan, s) {
      if Exits(plan, s) {
        ExitsStays(plan, s, l);
      } else {
        var i :| 0 <= i < |s.segments| && Due(plan, s, i);
        assert Due(plan, t, i);
      }
    }
  }

  /** A step back to the loop head from where the next round can neither start anything nor leave. */
  predicate IsFruitless(plan: Plan, s: State, l: Label)
    requires InRange(plan, s) && Enabled(plan, s, l)
  {
    var t := Step(plan, s, l);
    (l.LWake? || l.LRound?) && t.pc.Head? && Fits(plan, t) && !Ready(plan, t)
  }

  /**
   Every step but the passing of time, the caller's abort and a fruitless return to the
   loop head lowers the measure; a fruitless one adds at most one.
   */
  lemma StepMeasure(plan: Plan, s: State, l: Label)
    requires Safe(plan, s) && InRange(plan, s) && Enabled(plan, s, l)
    ensures var t := Step(plan, s, l);
            && Fits(plan, t)
            && (IsEnvironment(l) ==> Measure(plan, t) <= Measure(plan, s))
            && (IsFruitless(plan, s, l) ==> Measure(plan, t) <= Measure(plan, s) + 1)
            && (!IsEnvironment(l) && !IsFruitless(plan, s, l) ==> Measure(plan, t) < Measure(plan, s))
  {
    hide Kept, Exits, Round, Ready, Parked;
    var t := Step(plan, s, l);
    if l.LRound? {
      RoundMeasure(plan, s, l.later);
    } else if IsEnvironment(l) {
      EnvironmentMeasure(plan, s, l);
    } else if l.LResolve? || l.LReject? {
      SettleMeasure(plan, s, l);
    } else if l.LLeave? {
      LeaveMeasure(plan, s, l.task);
    } else {
      UnstartedFrame(plan, s, t, |s.segments|);
      assert SendingTasks(t) == SendingTasks(s);
    }
  }

  /** A fruitless step needs a null rejection or a cap below one. */
  lemma StepTimed(plan: Plan, s: State, l: Label)
    requires Safe(plan, s) && InRange(plan, s) && Enabled(plan, s, l) && Timed(plan, s)
    requires !s.nullRejection && !Step(plan, s, l).nullRejection
    requires Cap(plan).Some? ==> Cap(plan).value >= 1
    ensures Fits(plan, Step(plan, s, l)) && Timed(plan, Step(plan, s, l)) && !IsFruitless(plan, s, l)
  {
    hide Kept, Exits, Round, Timed, Ready, Parked;
    if l.LRound? {
      if Exits(plan, s) { ExitMeasure(plan, s, l.later); } else { RoundUseful(plan, s, l.later); }
    } else {
      TimedStep(plan, s, l);
      if l.LWake? { WakeIsReady(plan, s); }
    }
  }

  lemma WakeIsReady(plan: Plan, s: State)
    requires Kept(plan, s) && InRange(plan, s) && Enabled(plan, s, LWake) && Timed(plan, s) && !s.nullRejection
    ensures Ready(plan, s.(pc := Head))
  {
    hide Kept, Exits, Ready;
    WakeReady(plan, s, if s.pc.Sleeping? then s.pc.until else s.pc.wakeAt.value);
  }

  function Total(plan: Plan, n: nat): nat
    requires n <= |plan.segments|
  {
    if n == 0 then 0 else Total(plan, n - 1) + Records(plan, n - 1)
  }

  lemma {:induction false} UnstartedInit(plan: Plan, now: real, aborted: bool, n: nat)
    requires n <= |plan.segments|
    ensures Unstarted(plan, Init(plan, now, aborted), n) == Total(plan, n)
  {
    if n > 0 { UnstartedInit(plan, now, aborted, n - 1); }
  }

  /** How many steps of a run are the scheduler's own, not the environment's. */
  function Working(labels: seq<Label>): nat {
    if labels == [] then 0 else (if IsEnvironment(labels[0]) then 0 else 1) + Working(labels[1..])
  }

  lemma NullStays(plan: Plan, s: State, l: Label)
    requires Safe(plan, s) && InRange(plan, s) && Enabled(plan, s, l) && s.nullRejection
    ensures Step(plan, s, l).nullRejection
  {
    hide Kept, Due, Exits;
    if l.LRound? && !Exits(plan, s) {
      StartAllFrame2(plan, s);
      StartAllFrame3(plan, s);
    }
  }

  lemma StartAllFrame3(plan: Plan, s: State)
    requires Fits(plan, s)
    ensures StartAll(s, Picked(plan, s)).nullRejection == s.nullRejection
  {
    hide Due;
    NeverPassedOver(plan, s);
    StartAllFrame(s, Picked(plan, s));
  }

  lemma {:induction false} NullStaysRun(plan: Plan, s: State, labels: seq<Label>)
    requires Safe(plan, s) && InRange(plan, s) && Runs(plan, s, labels) && s.nullRejection
    ensures RunTo(plan, s, labels).nullRejection
    decreases |labels|
  {
    hide Safe, Step, Enabled;
    if labels != [] {
      StepSafe(plan, s, labels[0]);
      NullStays(plan, s, labels[0]);
      NullStaysRun(plan, Step(plan, s, labels[0]), labels[1..]);
    }
  }

  /** How many steps of a run are fruitless. */
  function Fruitless(plan: Plan, s: State, labels: seq<Label>): nat
    requires InRange(plan, s) && Runs(plan, s, labels)
    decreases |labels|
  {
    if labels == [] then 0
    else
      (if IsFruitless(plan, s, labels[0]) then 1 else 0) + Fruitless(plan, Step(plan, s, labels[0]), labels[1..])
  }

  lemma {:induction false} RunMeasure(plan: Plan, s: State, labels: seq<Label>)
    requires Safe(plan, s) && InRange(plan, s) && Runs(plan, s, labels)
    ensures Fits(plan, RunTo(plan, s, labels))
    ensures Working(labels) + Measure(plan, RunTo(plan, s, labels))
            <= Measure(plan, s) + 2 * Fruitless(plan, s, labels)
    decreases |labels|
  {
    hide Safe, Step, Enabled, Measure, IsFruitless;
    if labels != [] {
      StepSafe(plan, s, labels[0]);
      StepMeasure(plan, s, labels[0]);
      assert IsEnvironment(labels[0])
          ==> !IsFruitless(plan, s, labels[0]) by { EnvironmentBearsFruit(plan, s, labels[0]); }
      RunMeasure(plan, Step(plan, s, labels[0]), labels[1..]);
    }
  }

  lemma EnvironmentBearsFruit(plan: Plan, s: State, l: Label)
    requires InRange(plan, s) && Enabled(plan, s, l)
    ensures IsEnvironment(l) ==> !IsFruitless(plan, s, l)
  {
  }

  lemma {:induction false} RunFruitful(plan: Plan, s: State, labels: seq<Label>)
    requires Safe(plan, s) && InRange(plan, s) && Runs(plan, s, labels) && Timed(plan, s)
    requires Cap(plan).Some? ==> Cap(plan).value >= 1
    requires !RunTo(plan, s, labels).nullRejection
    ensures Fruitless(plan, s, labels) == 0
    decreases |labels|
  {
    hide Safe, Step, Enabled, Timed, IsFruitless;
    if labels != [] {
      StepSafe(plan, s, labels[0]);
      if s.nullRejection { NullStaysRun(plan, s, labels); }
      if Step(plan, s, labels[0]).nullRejection { NullStaysRun(plan, Step(plan, s, labels[0]), labels[1..]); }
      StepTimed(plan, s, labels[0]);
      RunFruitful(plan, Step(plan, s, labels[0]), labels[1..]);
    }
  }

  /**
   The schedule ends: whatever settles when and however the clock advances, a run takes
   at most eight steps of its own per record, four more, and two per fruitless step; and
   there is no fruitless step without a null rejection or a cap below one.
   */
  lemma RunsEnd(plan: Plan, now: real, aborted: bool, labels: seq<Label>)
    requires InRange(plan, Init(plan, now, aborted)) && Runs(plan, Init(plan, now, aborted), labels)
    ensures var s := Init(plan, now, aborted);
            && Working(labels) <= 8 * Total(plan, |plan.segments|) + 4 + 2 * Fruitless(plan, s, labels)
            && (Fruitless(plan, s, labels) == 0 || RunTo(plan, s, labels).nullRejection
                || (Cap(plan).Some? && Cap(plan).value < 1))
  {
    hide Runs, RunTo, Safe, Kept, Fruitless;
    var s := Init(plan, now, aborted);
    InitSafe(plan, now, aborted);
    RunMeasure(plan, s, labels);
    UnstartedInit(plan, now, aborted, |plan.segments|);
    assert SendingTasks(s) == {};
    RunSafe(plan, s, labels);
    MeasureNat(plan, RunTo(plan, s, labels));
    if !RunTo(plan, s, labels).nullRejection && (Cap(plan).Some? ==> Cap(plan).value >= 1) {
      RunFruitful(plan, s, labels);
    }
  }

  lemma MeasureNat(plan: Plan, s: State)
    requires Safe(plan, s)
    ensures Fits(plan, s) && Measure(plan, s) >= 0
  {
    UnstartedNat(plan, s, |s.segments|);
  }

  predicate WakesAfter(plan: Plan, s: State, later: real) {
    later >= 0.0 && Enabled(plan, s.(now := s.now + later), LWake)
  }

  /** And it never stands still: some step is possible, once requests settle and time passes. */
  lemma NeverStuck(plan: Plan, s: State)
    requires Safe(plan, s) && !s.pc.Returned? && !s.pc.Failed? && !s.pc.Canceled?
    ensures || s.pc.Head?
            || (exists task :: Enabled(plan, s, LLeave(task)))
            || (exists task :: Enabled(plan, s, LResolve(task)) && Enabled(plan, s, LReject(task, None)))
            || (s.pc.Sleeping? && exists later :: WakesAfter(plan, s, later))
            || Enabled(plan, s, LFinish)
  {
    if s.pc.Sleeping? {
      var later := MaxReal(0.0, s.pc.until - s.now);
      assert WakesAfter(plan, s, later);
    } else if s.inFlight != map[] {
      assert s.inFlight.Keys != {};
      var task :| task in s.inFlight;
      assert Enabled(plan, s, LLeave(task))
          || (Enabled(plan, s, LResolve(task)) && Enabled(plan, s, LReject(task, None)));
    }
  }
}
