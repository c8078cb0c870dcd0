/**
 The scheduler's times, cap and outcome in the plan's own numbers: when a record
 falls due, when it goes out, how long the loop waits, what a run ends with.
 */
module ReplayTimes {
  import opened Options
  import opened Numbers
  import opened ReplayModel
  import opened ReplaySafety
  import opened ReplayRuns

  /** A segment arrives at its recorded offset, at once, or at its turn; never before the start. */
  predicate IsArrival(arrival: Arrival, i: nat, offset: real, at: real) {
    match arrival
    case RecordedArrival => if offset > 0.0 then at == offset else at == 0.0
    case Together(_) => at == 0.0
    case Interval(intervalMs, _) => at == i as real * intervalMs
  }

  /** The wait between two records, with a recorded time that is absent or negative counting as none. */
  predicate IsWait(policy: ThinkPolicy, recorded: Option<real>, wait: real) {
    var r := if recorded.Some? && recorded.value > 0.0 then recorded.value else 0.0;
    match policy
    case RecordedThink => wait == r
    case Scaled(factor) => wait == r * factor
    case Capped(maxMs) => if r <= maxMs then wait == r else wait == maxMs
    case NoThink => wait == 0.0
  }

  predicate HasWaited(plan: Plan, i: nat, k: nat, before: Record, due: real)
    requires i < |plan.segments| && 0 < k < |plan.segments[i].thinkTimes|
  {
    && before.task == Task(i, k - 1)
    && IsWait(plan.thinkPolicy, plan.segments[i].thinkTimes[k], due - before.at)
  }

  /** Record k of segment i falls due on arrival, or a wait after the completion of the record before it. */
  predicate FallsDue(plan: Plan, completions: seq<Record>, i: nat, k: nat, due: real)
    requires i < |plan.segments| && k < |plan.segments[i].thinkTimes|
  {
    if k == 0 then IsArrival(plan.arrival, i, plan.segments[i].startOffset, due)
    else exists before <- completions :: HasWaited(plan, i, k, before, due)
  }

  predicate BelowCap(arrival: Arrival, n: int) {
    match arrival
    case RecordedArrival => true
    case Together(cap) => cap.Some? ==> n < cap.value
    case Interval(_, cap) => cap.Some? ==> n < cap.value
  }

  /** The time on the clock since the schedule began, with what was skipped. */
  ghost predicate IsTime(s: State, at: real) { at == s.now - s.origin + s.skipped }

  // Due times.

  lemma ArrivalShown(plan: Plan, i: nat)
    requires i < |plan.segments|
    ensures IsArrival(plan.arrival, i, plan.segments[i].startOffset, StartOffset(plan, i))
  {
  }

  lemma WaitShown(plan: Plan, i: nat, k: nat)
    requires i < |plan.segments| && k < |plan.segments[i].thinkTimes|
    ensures IsWait(plan.thinkPolicy, plan.segments[i].thinkTimes[k], ThinkBefore(plan, i, k))
  {
    WaitOf(plan.segments[i].thinkTimes[k], plan.thinkPolicy);
  }

  lemma WaitOf(recorded: Option<real>, policy: ThinkPolicy)
    ensures IsWait(policy, recorded, ThinkTime(recorded, policy))
  {
    var r := if recorded.Some? && recorded.value > 0.0 then recorded.value else 0.0;
    assert MaxReal(0.0, recorded.GetOr(0.0)) == r;
  }

  lemma {:induction false} CompletedIsIn(log: seq<Record>, task: Task)
    requires CompletedAt(log, task).Some?
    ensures Record(task, CompletedAt(log, task).value) in log
    decreases |log|
  {
    if log != [] && CompletedAt(log[..|log| - 1], task).Some? {
      CompletedIsIn(log[..|log| - 1], task);
    }
  }

  lemma DueShown(plan: Plan, completions: seq<Record>, i: nat, k: nat)
    requires i < |plan.segments| && k < |plan.segments[i].thinkTimes|
    requires DueTime(plan, completions, Task(i, k)).Some?
    ensures FallsDue(plan, completions, i, k, DueTime(plan, completions, Task(i, k)).value)
  {
    hide StartOffset, ThinkBefore, IsArrival, IsWait, CompletedAt;
    if k == 0 {
      ArrivalShown(plan, i);
    } else {
      WaitShown(plan, i, k);
      CompletedIsIn(completions, Task(i, k - 1));
      var before := Record(Task(i, k - 1), CompletedAt(completions, Task(i, k - 1)).value);
      assert HasWaited(plan, i, k, before, DueTime(plan, completions, Task(i, k)).value);
    }
  }

  ghost predicate WentOutInTime(plan: Plan, completions: seq<Record>, start: Record) {
    var i, k := start.task.segment, start.task.record;
    && i < |plan.segments| && k < |plan.segments[i].thinkTimes|
    && exists due :: FallsDue(plan, completions, i, k, due) && due <= start.at
  }

  lemma {:induction false} LoggedIsListed(log: seq<Record>, r: Record)
    requires r in log
    ensures r.task.record in RecordsOf(log, r.task.segment)
    decreases |log|
  {
    var init := log[..|log| - 1];
    if log[|log| - 1] != r {
      assert log == init + [log[|log| - 1]];
      LoggedIsListed(init, r);
    }
  }

  lemma StartShown(plan: Plan, s: State, start: Record)
    requires Kept(plan, s) && start in s.starts
    ensures WentOutInTime(plan, s.completions, start)
  {
    hide RecordsOf, Upto, CompletedAt, DueTime, FallsDue;
    var i, k := start.task.segment, start.task.record;
    assert OnTime(plan, s, start);
    assert SegmentKept(plan, s, i);
    LoggedIsListed(s.starts, start);
    InUpto(k, StartedCount(s, i));
    DueShown(plan, s.completions, i, k);
  }

  /**
   At every reachable state, a segment that is idle with records left is due at its
   arrival or its wait after its last completion, and no request went out before that.
   A segment's records complete once each, in order, so that completion is the only one.
   */
  lemma DueInNumbers(plan: Plan, now: real, aborted: bool, labels: seq<Label>)
    requires InRange(plan, Init(plan, now, aborted)) && Runs(plan, Init(plan, now, aborted), labels)
    ensures var s := RunTo(plan, Init(plan, now, aborted), labels);
            && |s.segments| == |plan.segments|
            && (forall i | 0 <= i < |s.segments| && !s.segments[i].running
                           && s.segments[i].next < |plan.segments[i].thinkTimes| ::
                  FallsDue(plan, s.completions, i, s.segments[i].next, s.segments[i].dueAt))
            && (forall i | 0 <= i < |s.segments| :: RecordsOf(s.completions, i) == Upto(s.segments[i].next))
            && (forall start <- s.starts :: WentOutInTime(plan, s.completions, start))
  {
    hide Runs, RunTo, Kept, Parked, FallsDue, WentOutInTime, DueTime, RecordsOf, Upto;
    InitSafe(plan, now, aborted);
    RunSafe(plan, Init(plan, now, aborted), labels);
    var s := RunTo(plan, Init(plan, now, aborted), labels);
    KeptFits(plan, s);
    forall i | 0 <= i < |s.segments| && !s.segments[i].running && s.segments[i].next < |plan.segments[i].thinkTimes|
      ensures FallsDue(plan, s.completions, i, s.segments[i].next, s.segments[i].dueAt)
    {
      SegmentShown(plan, s, i);
      DueShown(plan, s.completions, i, s.segments[i].next);
    }
    forall i | 0 <= i < |s.segments| ensures RecordsOf(s.completions, i) == Upto(s.segments[i].next) {
      SegmentShown(plan, s, i);
    }
    forall start | start in s.starts ensures WentOutInTime(plan, s.completions, start) {
      StartShown(plan, s, start);
    }
  }

  lemma SegmentShown(plan: Plan, s: State, i: nat)
    requires Kept(plan, s) && i < |s.segments|
    ensures DueTime(plan, s.completions, Task(i, s.segments[i].next)) == Some(s.segments[i].dueAt)
    ensures RecordsOf(s.completions, i) == Upto(s.segments[i].next)
  {
    assert SegmentKept(plan, s, i);
  }

  // What a step writes into the log, and when.

  lemma {:induction false} StartAllLog(s: State, picked: seq<nat>)
    requires AllBelow(picked, |s.segments|) && Distinct(picked)
    ensures var t := StartAll(s, picked);
            && |t.starts| == |s.starts| + |picked| && t.starts[..|s.starts|] == s.starts
            && forall k | 0 <= k < |picked| ::
                 var start := t.starts[|s.starts| + k];
                 start.task == Task(picked[k], s.segments[picked[k]].next) && IsTime(s, start.at)
    decreases |picked|
  {
    if picked != [] {
      var init := picked[..|picked| - 1];
      StartAllLog(s, init);
      StartAllFrame(s, init);
    }
  }

  /**
   Only a round sends and only an answer completes, each logged at the time on the
   clock; the clock's zero never moves.
   */
  lemma StepLogs(plan: Plan, s: State, l: Label)
    requires Safe(plan, s) && Enabled(plan, s, l)
    ensures InRange(plan, s)
    ensures var t := Step(plan, s, l);
            && t.origin == s.origin
            && (!l.LRound? ==> t.starts == s.starts)
            && |s.starts| <= |t.starts| && t.starts[..|s.starts|] == s.starts
            && (forall k | |s.starts| <= k < |t.starts| :: IsTime(s, t.starts[k].at))
            && (!l.LResolve? ==> t.completions == s.completions)
            && (l.LResolve? ==> exists at :: IsTime(s, at) && t.completions == s.completions + [Record(l.task, at)])
  {
    hide Kept, Parked, Exits, StartAll, Await, Picked;
    KeptFits(plan, s);
    if l.LRound? && !Exits(plan, s) {
      NeverPassedOver(plan, s);
      StartAllFrame(s, Picked(plan, s));
      StartAllLog(s, Picked(plan, s));
      var begun := StartAll(s, Picked(plan, s));
      AwaitShape(plan, begun.(now := begun.now + l.later));
      var t := Step(plan, s, l);
      forall k | |s.starts| <= k < |t.starts| ensures IsTime(s, t.starts[k].at) {
        var m := k - |s.starts|;
        assert t.starts[|s.starts| + m].task.segment == Picked(plan, s)[m];
      }
    } else if l.LResolve? {
      assert IsTime(s, VirtualNow(s));
    }
  }

  // Whom a round sends.

  predicate MayGo(plan: Plan, s: State, i: nat)
    requires |s.segments| == |plan.segments|
  {
    && i < |s.segments| && s.segments[i].next < |plan.segments[i].thinkTimes| && !s.segments[i].running
    && s.segments[i].dueAt <= s.now - s.origin + s.skipped
  }

  /**
   A round sends the next records of segments that are due, each once; a due segment
   it leaves waiting is due no earlier than any it sends, and then the cap is reached.
   */
  lemma RoundInNumbers(plan: Plan, s: State, later: real)
    requires Safe(plan, s) && s.pc.Head? && s.failure.None? && !s.aborted && later >= 0.0
    ensures |s.segments| == |plan.segments|
    ensures var t := Round(plan, s, later);
            && |t.segments| == |s.segments| && |s.starts| <= |t.starts|
            && (forall k | |s.starts| <= k < |t.starts| ::
                  var task := t.starts[k].task;
                  MayGo(plan, s, task.segment) && task.record == s.segments[task.segment].next)
            && (forall j, k | |s.starts| <= j < k < |t.starts| :: t.starts[j].task != t.starts[k].task)
            && (forall i: nat | MayGo(plan, s, i) ::
                  t.segments[i].running
                  || (&& !BelowCap(plan.arrival, |Running(t)|)
                      && forall k | |s.starts| <= k < |t.starts| ::
                           s.segments[t.starts[k].task.segment].dueAt <= s.segments[i].dueAt))
            && (forall i | 0 <= i < |s.segments| && t.segments[i].running && !s.segments[i].running ::
                  exists k :: |s.starts| <= k < |t.starts| && t.starts[k].task == Task(i, s.segments[i].next))
  {
    hide Kept, Parked, StartAll, Await, Picked, DueOrder;
    KeptFits(plan, s);
    var t := Round(plan, s, later);
    assert forall i: nat :: MayGo(plan, s, i) <==> Due(plan, s, i);
    if Exits(plan, s) {
      assert forall i: nat :: !MayGo(plan, s, i);
    } else {
      var picked := Picked(plan, s);
      NeverPassedOver(plan, s);
      StartAllKeeps(plan, s, picked);
      StartAllFrame(s, picked);
      StartAllLog(s, picked);
      var begun := StartAll(s, picked);
      AwaitShape(plan, begun.(now := begun.now + later));
      assert Running(t) == Running(begun);
      assert forall k | |s.starts| <= k < |t.starts| ::
          t.starts[k].task == Task(picked[k - |s.starts|], s.segments[picked[k - |s.starts|]].next);
      assert forall k | 0 <= k < |picked| :: picked[k] in picked;
      forall i: nat | i in picked
        ensures exists k :: |s.starts| <= k < |t.starts| && t.starts[k].task == Task(i, s.segments[i].next)
      {
        var k :| 0 <= k < |picked| && picked[k] == i;
        assert t.starts[|s.starts| + k].task == Task(i, s.segments[i].next);
      }
    }
  }

  // How long the loop waits.

  predicate Idles(plan: Plan, s: State, i: nat)
    requires |s.segments| == |plan.segments|
  {
    i < |s.segments| && s.segments[i].next < |plan.segments[i].thinkTimes| && !s.segments[i].running
  }

  /** A segment that waits, and none waits for an earlier time. */
  predicate WaitsLeast(plan: Plan, s: State, i: nat)
    requires |s.segments| == |plan.segments|
  {
    && Idles(plan, s, i)
    && forall j | 0 <= j < |s.segments| && Idles(plan, s, j) :: s.segments[i].dueAt <= s.segments[j].dueAt
  }

  /** The time on the clock, not before now, at which a time of the schedule comes. */
  predicate ComesAt(s: State, due: real, at: real) {
    if due <= s.now - s.origin + s.skipped then at == s.now else at - s.origin + s.skipped == due
  }

  /** The loop sleeps, or races its requests, until the earliest due time that it can act on. */
  ghost predicate IsTimed(plan: Plan, t: State)
    requires |t.segments| == |plan.segments|
  {
    match t.pc
    case Sleeping(until) =>
      && !plan.idleSkipping && t.inFlight == map[] && t.now < until
      && exists i: nat :: WaitsLeast(plan, t, i) && ComesAt(t, t.segments[i].dueAt, until)
    case Racing(raced, wakeAt) =>
      && raced == t.inFlight.Keys != {}
      && (wakeAt.Some? <==> BelowCap(plan.arrival, |Running(t)|) && exists i: nat :: Idles(plan, t, i))
      && (wakeAt.Some? ==> exists i: nat :: WaitsLeast(plan, t, i) && ComesAt(t, t.segments[i].dueAt, wakeAt.value))
    case _ => true
  }

  /** Idle time was skipped: it is now the earliest due time. */
  ghost predicate HasSkipped(plan: Plan, t: State)
    requires |t.segments| == |plan.segments|
  {
    && plan.idleSkipping && t.inFlight == map[]
    && exists i: nat :: WaitsLeast(plan, t, i) && t.segments[i].dueAt == t.now - t.origin + t.skipped
  }

  /**
   With nothing in flight a round skips or sleeps until the earliest due time; with
   requests in flight it races them, against that time only if a segment waits and
   the cap leaves room.
   */
  lemma TimersInNumbers(plan: Plan, s: State, later: real)
    requires Safe(plan, s) && s.pc.Head? && later >= 0.0
    ensures |s.segments| == |plan.segments|
    ensures var t := Round(plan, s, later);
            |t.segments| == |plan.segments| && IsTimed(plan, t) && (t.skipped != s.skipped ==> HasSkipped(plan, t))
  {
    hide Kept, Parked, StartAll, Picked, DueOrder, Exits, Await;
    KeptFits(plan, s);
    if !Exits(plan, s) {
      NeverPassedOver(plan, s);
      StartAllKeeps(plan, s, Picked(plan, s));
      StartAllFrame(s, Picked(plan, s));
      var begun := StartAll(s, Picked(plan, s));
      KeptFits(plan, begun);
      AwaitTimers(plan, begun.(now := begun.now + later));
    }
  }

  lemma AwaitTimers(plan: Plan, s: State)
    requires Fits(plan, s) && s.pc.Head?
    ensures var t := Await(plan, s);
            |t.segments| == |plan.segments| && IsTimed(plan, t) && (t.skipped != s.skipped ==> HasSkipped(plan, t))
  {
    hide NextDue;
    var t := Await(plan, s);
    var d := NextDue(plan, s, |s.segments|);
    NextDueShape(plan, s, |s.segments|);
    AwaitShape(plan, s);
    assert Running(t) == Running(s);
    assert forall i: nat :: Idles(plan, t, i) <==> Waiting(plan, s, i);
    if d.Some? {
      var i :| 0 <= i < |s.segments| && Waiting(plan, s, i) && s.segments[i].dueAt == d.value;
      assert WaitsLeast(plan, t, i);
      if t.pc.Sleeping? { assert ComesAt(t, t.segments[i].dueAt, t.pc.until); }
      if t.pc.Racing? && t.pc.wakeAt.Some? { assert ComesAt(t, t.segments[i].dueAt, t.pc.wakeAt.value); }
    }
  }

  // The cap and the outcome, over whole runs.

  /** No more than the cap, and so nothing if it is below 0. */
  predicate WithinCap(arrival: Arrival, n: int) { n == 0 || BelowCap(arrival, n - 1) }

  lemma StepCapped(plan: Plan, s: State, l: Label)
    requires Safe(plan, s) && Enabled(plan, s, l) && WithinCap(plan.arrival, |Running(s)|)
    ensures InRange(plan, s) && WithinCap(plan.arrival, |Running(Step(plan, s, l))|)
  {
    hide Kept, Parked, Due, Exits, Await, DueOrder, ThinkBefore, Round;
    KeptFits(plan, s);
    if HasCapacity(plan, s, 0) {
      StepWithinCap(plan, s, l);
    } else {
      assert Running(s) == {};
      if l.LRound? {
        RoundCapped(plan, s, l.later);
      } else {
        assert Running(Step(plan, s, l)) == {};
      }
    }
  }

  /** With a cap below 0 a round starts nothing. */
  lemma RoundCapped(plan: Plan, s: State, later: real)
    requires Kept(plan, s) && s.pc.Head? && !HasCapacity(plan, s, 0) && Running(s) == {}
    ensures Fits(plan, s) && Running(Round(plan, s, later)) == {}
  {
    hide Kept, Exits, Await, DueOrder;
    KeptFits(plan, s);
    var t := Round(plan, s, later);
    if !Exits(plan, s) {
      assert Picked(plan, s) == [] && StartAll(s, Picked(plan, s)) == s;
      AwaitShape(plan, s.(now := s.now + later));
    }
    assert forall i | 0 <= i < |s.segments| :: s.segments[i].running ==> i in Running(s);
  }

  lemma {:induction false} RunCapped(plan: Plan, s: State, labels: seq<Label>)
    requires Safe(plan, s) && InRange(plan, s) && Runs(plan, s, labels) && WithinCap(plan.arrival, |Running(s)|)
    ensures WithinCap(plan.arrival, |Running(RunTo(plan, s, labels))|) && Safe(plan, RunTo(plan, s, labels))
    decreases |labels|
  {
    hide Safe, Step, Enabled, WithinCap;
    if labels != [] {
      StepSafe(plan, s, labels[0]);
      StepCapped(plan, s, labels[0]);
      RunCapped(plan, Step(plan, s, labels[0]), labels[1..]);
    }
  }

  /** At every reachable state, running segments and requests being sent are within the cap, whatever it is. */
  lemma CapInNumbers(plan: Plan, now: real, aborted: bool, labels: seq<Label>)
    requires InRange(plan, Init(plan, now, aborted)) && Runs(plan, Init(plan, now, aborted), labels)
    ensures var s := RunTo(plan, Init(plan, now, aborted), labels);
            WithinCap(plan.arrival, |Running(s)|) && WithinCap(plan.arrival, |SendingTasks(s)|)
  {
    hide Runs, RunTo, Kept, Parked;
    InitSafe(plan, now, aborted);
    assert Running(Init(plan, now, aborted)) == {};
    RunCapped(plan, Init(plan, now, aborted), labels);
    var s := RunTo(plan, Init(plan, now, aborted), labels);
    KeptShows(plan, s);
    SendingAtMostRunning(s);
  }

  predicate EverythingOnce(plan: Plan, log: seq<Record>) {
    forall i | 0 <= i < |plan.segments| :: RecordsOf(log, i) == seq(|plan.segments[i].thinkTimes|, k => k)
  }

  lemma EverythingShown(plan: Plan, s: State)
    requires Fits(plan, s)
    ensures AllDone(plan, s) <==> EverythingOnce(plan, s.starts) && EverythingOnce(plan, s.completions)
  {
    hide RecordsOf;
  }

  // Errors.

  predicate Rejects(l: Label, error: Option<Thrown>) { l.LReject? && l.error == error }

  predicate Throws(l: Label) { l.LReject? && l.error.Some? && l.error.value.Thrown? }

  /** The first error that is neither null nor undefined, or failing that the last one of all. */
  predicate IsLeft(labels: seq<Label>, failure: Option<Thrown>) {
    if exists k :: 0 <= k < |labels| && Throws(labels[k]) then
      exists k :: 0 <= k < |labels| && Throws(labels[k]) && Rejects(labels[k], failure)
                  && forall j | 0 <= j < k :: !Throws(labels[j])
    else if exists k :: 0 <= k < |labels| && labels[k].LReject? then
      exists k :: 0 <= k < |labels| && Rejects(labels[k], failure) && forall j | k < j < |labels| :: !labels[j].LReject?
    else failure == None
  }

  /** Some request was rejected with null before any with an error that lasts. */
  predicate LosesNull(labels: seq<Label>) {
    exists k :: 0 <= k < |labels| && Rejects(labels[k], None) && forall j | 0 <= j < k :: !Throws(labels[j])
  }

  lemma ErrorsLeft(labels: seq<Label>, l: Label, failure: Option<Thrown>)
    requires IsLeft(labels, failure)
    ensures IsLeft(labels + [l],
                   if l.LReject? && !(failure.Some? && failure.value.Thrown?) then l.error else failure)
    ensures LosesNull(labels + [l])
            <==> LosesNull(labels) || (Rejects(l, None) && !(failure.Some? && failure.value.Thrown?))
  {
    var all := labels + [l];
    assert forall k | 0 <= k < |labels| :: all[k] == labels[k];
    assert all[|labels|] == l;
  }

  lemma {:induction false} RunsSplit(plan: Plan, s: State, labels: seq<Label>)
    requires InRange(plan, s) && Runs(plan, s, labels) && labels != []
    ensures var init, last := labels[..|labels| - 1], labels[|labels| - 1];
            && Runs(plan, s, init) && InRange(plan, RunTo(plan, s, init)) && Enabled(plan, RunTo(plan, s, init), last)
            && RunTo(plan, s, labels) == Step(plan, RunTo(plan, s, init), last)
    decreases |labels|
  {
    hide Step, Enabled, InRange;
    var init := labels[..|labels| - 1];
    if |labels| == 1 {
      assert labels[1..] == [] && init == [];
    } else {
      RunsSplit(plan, Step(plan, s, labels[0]), labels[1..]);
      assert labels[1..][..|labels[1..]| - 1] == init[1..];
    }
  }

  /** A rejection leaves its error behind unless one that lasts is there; no other step touches the failure. */
  lemma StepErrors(plan: Plan, s: State, l: Label)
    requires Safe(plan, s) && Enabled(plan, s, l)
    ensures InRange(plan, s)
    ensures var t := Step(plan, s, l);
            && t.failure == (if l.LReject? && !(s.failure.Some? && s.failure.value.Thrown?) then l.error else s.failure)
            && (t.nullRejection <==>
                  s.nullRejection || (Rejects(l, None) && !(s.failure.Some? && s.failure.value.Thrown?)))
            && (t.aborted <==> s.aborted || l.LAbort?)
            && (l.LFinish? ==> t.pc == if s.failure.Some? then Failed(s.failure.value)
                                       else if s.aborted then Canceled else Returned)
            && (t.pc.Failed? || t.pc.Canceled? || t.pc.Returned? ==> l.LFinish? || t.pc == s.pc)
  {
    hide Kept, Due, Await, Picked, DueOrder, Exits;
    KeptFits(plan, s);
    if l.LRound? && !Exits(plan, s) {
      NeverPassedOver(plan, s);
      StartAllFrame(s, Picked(plan, s));
      var begun := StartAll(s, Picked(plan, s));
      AwaitShape(plan, begun.(now := begun.now + l.later));
    }
  }

  /**
   The failure of any run: the first error that lasts, or else the last of all; and
   a null rejection is lost exactly when none before it lasts.
   */
  lemma {:induction false} RunErrors(plan: Plan, now: real, aborted: bool, labels: seq<Label>)
    requires InRange(plan, Init(plan, now, aborted)) && Runs(plan, Init(plan, now, aborted), labels)
    ensures var s := RunTo(plan, Init(plan, now, aborted), labels);
            && IsLeft(labels, s.failure)
            && (s.nullRejection <==> LosesNull(labels))
            && (s.aborted <==> aborted || exists k :: 0 <= k < |labels| && labels[k].LAbort?)
    decreases |labels|
  {
    hide Kept, Parked, Step, Enabled, InRange, IsLeft, LosesNull;
    if labels == [] {
      assert IsLeft([], None) && !LosesNull([]) by { NoErrors(); }
    } else {
      var init, last := labels[..|labels| - 1], labels[|labels| - 1];
      RunsSplit(plan, Init(plan, now, aborted), labels);
      RunErrors(plan, now, aborted, init);
      InitSafe(plan, now, aborted);
      RunSafe(plan, Init(plan, now, aborted), init);
      var s := RunTo(plan, Init(plan, now, aborted), init);
      StepErrors(plan, s, last);
      ErrorsLeft(init, last, s.failure);
      assert labels == init + [last];
      assert forall k | 0 <= k < |init| :: labels[k] == init[k];
    }
  }

  lemma NoErrors()
    ensures IsLeft([], None) && !LosesNull([])
  {
  }

  /** How a run ends: with the error its rejections leave, as canceled, or with every record sent and answered once. */
  predicate EndsAs(plan: Plan, s: State, labels: seq<Label>, aborted: bool) {
    match s.pc
    case Failed(error) => IsLeft(labels, Some(error))
    case Canceled => IsLeft(labels, None) && (aborted || exists k :: 0 <= k < |labels| && labels[k].LAbort?)
    case Returned =>
      IsLeft(labels, None)
      && (!aborted && (forall k | 0 <= k < |labels| :: !labels[k].LAbort?) ==>
            (EverythingOnce(plan, s.starts) && EverythingOnce(plan, s.completions) <==> !LosesNull(labels)))
    case _ => true
  }

  lemma OutcomeInNumbers(plan: Plan, now: real, aborted: bool, labels: seq<Label>)
    requires InRange(plan, Init(plan, now, aborted)) && Runs(plan, Init(plan, now, aborted), labels)
    ensures EndsAs(plan, RunTo(plan, Init(plan, now, aborted), labels), labels, aborted)
  {
    hide Runs, RunTo, Kept, Parked, IsLeft, LosesNull, EverythingOnce, AllDone;
    var s := RunTo(plan, Init(plan, now, aborted), labels);
    RunErrors(plan, now, aborted, labels);
    InitSafe(plan, now, aborted);
    RunSafe(plan, Init(plan, now, aborted), labels);
    KeptFits(plan, s);
    if s.pc.Returned? && !s.aborted {
      NormalReturn(plan, s);
      EverythingShown(plan, s);
    }
    PcShows(plan, now, aborted, labels);
  }

  /** An ended run has ended by its failure, or by its abort. */
  lemma {:induction false} PcShows(plan: Plan, now: real, aborted: bool, labels: seq<Label>)
    requires InRange(plan, Init(plan, now, aborted)) && Runs(plan, Init(plan, now, aborted), labels)
    ensures var s := RunTo(plan, Init(plan, now, aborted), labels);
            && (s.pc.Failed? ==> s.failure == Some(s.pc.error) && s.inFlight == map[])
            && (s.pc.Canceled? ==> s.failure.None? && s.aborted && s.inFlight == map[])
            && (s.pc.Returned? ==> s.failure.None? && s.inFlight == map[])
    decreases |labels|
  {
    hide Kept, Step, Enabled, InRange;
    if labels != [] {
      var init, last := labels[..|labels| - 1], labels[|labels| - 1];
      RunsSplit(plan, Init(plan, now, aborted), labels);
      PcShows(plan, now, aborted, init);
      InitSafe(plan, now, aborted);
      RunSafe(plan, Init(plan, now, aborted), init);
      RunSafe(plan, Init(plan, now, aborted), labels);
      var s := RunTo(plan, Init(plan, now, aborted), init);
      StepErrors(plan, s, last);
      PcStays(plan, s, last);
    }
  }

  lemma PcStays(plan: Plan, s: State, l: Label)
    requires InRange(plan, s) && Enabled(plan, s, l)
    ensures s.inFlight == map[] && (s.pc.Failed? || s.pc.Canceled? || s.pc.Returned?) ==>
              !l.LReject? && Step(plan, s, l).inFlight == map[]
  {
  }
}
