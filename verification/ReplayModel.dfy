/**
 The workload replay scheduler as a state machine. A `Round` is one stretch of the
 main loop from its head to the next await; the handlers of a request are steps of
 their own (`Resolve` and `Reject` run `then` and `catch`, `Leave` runs `finally`,
 one microtask later), and the clock and the caller's abort are the environment.
 */
module ReplayModel {
  import opened Options
  import opened Numbers

  // Arrival and think-time policies; caps are absent for recorded arrivals.
  datatype Arrival =
    | RecordedArrival
    | Together(cap: Option<int>)
    | Interval(intervalMs: real, cap: Option<int>)

  datatype ThinkPolicy = RecordedThink | Scaled(factor: real) | Capped(maxMs: real) | NoThink

  datatype Segment = Segment(startOffset: real, thinkTimes: seq<Option<real>>)

  datatype Plan = Plan(segments: seq<Segment>, arrival: Arrival, thinkPolicy: ThinkPolicy, idleSkipping: bool)

  function ThinkTime(recorded: Option<real>, policy: ThinkPolicy): real {
    var known := MaxReal(0.0, recorded.GetOr(0.0));
    match policy
    case RecordedThink => known
    case Scaled(factor) => known * factor
    case Capped(maxMs) => MinReal(known, maxMs)
    case NoThink => 0.0
  }

  function StartOffset(plan: Plan, i: nat): real
    requires i < |plan.segments|
  {
    match plan.arrival
    case RecordedArrival => MaxReal(0.0, plan.segments[i].startOffset)
    case Together(_) => 0.0
    case Interval(intervalMs, _) => i as real * intervalMs
  }

  function Cap(plan: Plan): Option<int> {
    if plan.arrival.RecordedArrival? then None else plan.arrival.cap
  }

  function Records(plan: Plan, i: nat): nat
    requires i < |plan.segments|
  {
    |plan.segments[i].thinkTimes|
  }

  function ThinkBefore(plan: Plan, i: nat, record: nat): real
    requires i < |plan.segments|
  {
    ThinkTime(if record < Records(plan, i) then plan.segments[i].thinkTimes[record] else None, plan.thinkPolicy)
  }

  datatype Task = Task(segment: nat, record: nat)

  // What a request is rejected with, when it is not null.
  datatype Thrown = Undefined | Thrown(message: string)

  // Settled: `then` or `catch` has run and `finally` has not.
  datatype Stage = Sending | Settled

  datatype SegmentState = SegmentState(next: nat, dueAt: real, running: bool)

  datatype Pc =
    | Head
    | Sleeping(until: real)
    | Racing(raced: set<Task>, wakeAt: Option<real>)
    | Draining
    | Returned
    | Failed(error: Thrown)
    | Canceled

  // A request sent, or completed, at a virtual time.
  datatype Record = Record(task: Task, at: real)

  // `starts`, `completions`, `rejected` and `nullRejection` are history that no step reads.
  datatype State = State(
    now: real,
    origin: real,
    skipped: real,
    segments: seq<SegmentState>,
    inFlight: map<Task, Stage>,
    failure: Option<Thrown>,
    stopped: bool,
    aborted: bool,
    pc: Pc,
    starts: seq<Record>,
    completions: seq<Record>,
    rejected: set<Task>,
    nullRejection: bool)

  function VirtualNow(s: State): real { s.now - s.origin + s.skipped }

  function Init(plan: Plan, now: real, aborted: bool): State {
    State(now, now, 0.0,
          seq(|plan.segments|, i requires 0 <= i < |plan.segments| => SegmentState(0, StartOffset(plan, i), false)),
          map[], None, false, aborted, Head, [], [], {}, false)
  }

  predicate Fits(plan: Plan, s: State) { |s.segments| == |plan.segments| }

  predicate HasRecords(plan: Plan, s: State, i: nat)
    requires Fits(plan, s)
  {
    i < |s.segments| && s.segments[i].next < Records(plan, i)
  }

  predicate Remaining(plan: Plan, s: State)
    requires Fits(plan, s)
  {
    exists i | 0 <= i < |s.segments| :: HasRecords(plan, s, i)
  }

  predicate Waiting(plan: Plan, s: State, i: nat)
    requires Fits(plan, s)
  {
    HasRecords(plan, s, i) && !s.segments[i].running
  }

  predicate Due(plan: Plan, s: State, i: nat)
    requires Fits(plan, s)
  {
    Waiting(plan, s, i) && s.segments[i].dueAt <= VirtualNow(s)
  }

  function Running(s: State): set<nat> {
    set i | 0 <= i < |s.segments| && s.segments[i].running
  }

  predicate HasCapacity(plan: Plan, s: State, more: nat) {
    Cap(plan).Some? ==> |Running(s)| + more <= Cap(plan).value
  }

  // The due segments, earliest first and stable, as filter and sort leave them.

  function DueAt(s: State, i: nat): real {
    if i < |s.segments| then s.segments[i].dueAt else 0.0
  }

  function Insert(s: State, order: seq<nat>, i: nat): seq<nat> {
    if order == [] || DueAt(s, order[|order| - 1]) <= DueAt(s, i) then order + [i]
    else Insert(s, order[..|order| - 1], i) + [order[|order| - 1]]
  }

  predicate AllBelow(order: seq<nat>, n: nat) {
    forall k | 0 <= k < |order| :: order[k] < n
  }

  lemma {:induction false} InsertBelow(s: State, order: seq<nat>, i: nat, n: nat)
    requires AllBelow(order, n) && i < n
    ensures AllBelow(Insert(s, order, i), n)
    decreases |order|
  {
    if order != [] {
      InsertBelow(s, order[..|order| - 1], i, n);
    }
  }

  function DueOrder(plan: Plan, s: State, n: nat): (order: seq<nat>)
    requires Fits(plan, s) && n <= |s.segments|
    ensures AllBelow(order, n)
  {
    if n == 0 then []
    else
      var order := DueOrder(plan, s, n - 1);
      if Due(plan, s, n - 1) then
        InsertBelow(s, order, n - 1, n);
        Insert(s, order, n - 1)
      else order
  }

  function Picked(plan: Plan, s: State): (picked: seq<nat>)
    requires Fits(plan, s)
    ensures AllBelow(picked, |s.segments|)
  {
    var order := DueOrder(plan, s, |s.segments|);
    match Cap(plan)
    case None => order
    case Some(cap) =>
      var capacity := if cap < |Running(s)| then 0 else cap - |Running(s)|;
      order[..if capacity < |order| then capacity else |order|]
  }

  function Start(s: State, i: nat): State
    requires i < |s.segments|
  {
    var task := Task(i, s.segments[i].next);
    s.(segments := s.segments[i := s.segments[i].(running := true)],
       inFlight := s.inFlight[task := Sending],
       starts := s.starts + [Record(task, VirtualNow(s))])
  }

  function StartAll(s: State, picked: seq<nat>): (t: State)
    requires AllBelow(picked, |s.segments|)
    ensures |t.segments| == |s.segments|
  {
    if picked == [] then s else Start(StartAll(s, picked[..|picked| - 1]), picked[|picked| - 1])
  }

  /** The earliest time at which one of the first n segments is waited for. */
  function NextDue(plan: Plan, s: State, n: nat): Option<real>
    requires Fits(plan, s) && n <= |s.segments|
  {
    if n == 0 then None
    else
      var earlier := NextDue(plan, s, n - 1);
      if !Waiting(plan, s, n - 1) then earlier
      else if earlier.None? then Some(s.segments[n - 1].dueAt)
      else Some(MinReal(earlier.value, s.segments[n - 1].dueAt))
  }

  /** What the stretch does after its starts: idle, or race the requests in flight. */
  function Await(plan: Plan, s: State): State
    requires Fits(plan, s)
  {
    var nextDue := NextDue(plan, s, |s.segments|);
    if s.inFlight == map[] then
      if nextDue.None? then s.(pc := Draining)
      else
        var gap := nextDue.value - VirtualNow(s);
        if gap <= 0.0 then s
        else if plan.idleSkipping then s.(skipped := s.skipped + gap)
        else s.(pc := Sleeping(s.now + gap))
    else
      var capped := !HasCapacity(plan, s, 1);
      var wakeAt :=
        if capped || nextDue.None? then None
        else Some(s.now + MaxReal(0.0, nextDue.value - VirtualNow(s)));
      s.(pc := Racing(s.inFlight.Keys, wakeAt))
  }

  predicate Exits(plan: Plan, s: State)
    requires Fits(plan, s)
  {
    !Remaining(plan, s) || s.failure.Some? || s.aborted
  }

  /** One stretch from the loop head; the clock is read again `later` after the first reading. */
  function Round(plan: Plan, s: State, later: real): State
    requires Fits(plan, s)
  {
    if Exits(plan, s) then s.(pc := Draining)
    else
      var begun := StartAll(s, Picked(plan, s));
      Await(plan, begun.(now := begun.now + later))
  }

  function Resolve(plan: Plan, s: State, task: Task): State
    requires Fits(plan, s) && task.segment < |s.segments|
  {
    var next := task.record + 1;
    s.(segments := s.segments[task.segment :=
         SegmentState(next, VirtualNow(s) + ThinkBefore(plan, task.segment, next), false)],
       inFlight := s.inFlight[task := Settled],
       completions := s.completions + [Record(task, VirtualNow(s))])
  }

  /** The failure can no longer be overwritten: it is neither null (None) nor undefined. */
  predicate IsLasting(failure: Option<Thrown>) { failure.Some? && failure.value.Thrown? }

  // `failure ??= error`, with null as None: a null error is lost, and so is an undefined one that null follows.
  function Reject(s: State, task: Task, error: Option<Thrown>): State {
    s.(inFlight := s.inFlight[task := Settled],
       failure := if IsLasting(s.failure) then s.failure else error,
       stopped := true,
       rejected := s.rejected + {task},
       nullRejection := s.nullRejection || (!IsLasting(s.failure) && error.None?))
  }

  function Leave(s: State, task: Task): State {
    s.(inFlight := s.inFlight - {task},
       pc := if s.pc.Racing? && task in s.pc.raced then Head else s.pc)
  }

  function Finish(s: State): State {
    s.(pc := if s.failure.Some? then Failed(s.failure.value) else if s.aborted then Canceled else Returned)
  }

  datatype Label =
    | LTick(elapsed: real)
    | LAbort
    | LResolve(task: Task)
    | LReject(task: Task, error: Option<Thrown>)
    | LLeave(task: Task)
    | LWake
    | LRound(later: real)
    | LFinish

  predicate TimerDone(s: State, until: real) { until <= s.now || s.aborted || s.stopped }

  predicate Enabled(plan: Plan, s: State, l: Label) {
    match l
    case LTick(elapsed) => elapsed >= 0.0
    case LAbort => true
    case LResolve(task) => task in s.inFlight && s.inFlight[task].Sending?
    case LReject(task, _) => task in s.inFlight && s.inFlight[task].Sending?
    case LLeave(task) => task in s.inFlight && s.inFlight[task].Settled?
    case LWake =>
      || (s.pc.Sleeping? && TimerDone(s, s.pc.until))
      || (s.pc.Racing? && s.pc.wakeAt.Some? && TimerDone(s, s.pc.wakeAt.value))
    case LRound(later) => s.pc.Head? && later >= 0.0
    case LFinish => s.pc.Draining? && s.inFlight == map[]
  }

  predicate InRange(plan: Plan, s: State) {
    Fits(plan, s) && forall task <- s.inFlight :: task.segment < |s.segments|
  }

  function Step(plan: Plan, s: State, l: Label): State
    requires InRange(plan, s) && Enabled(plan, s, l)
  {
    match l
    case LTick(elapsed) => s.(now := s.now + elapsed)
    case LAbort => s.(aborted := true)
    case LResolve(task) => Resolve(plan, s, task)
    case LReject(task, error) => Reject(s, task, error)
    case LLeave(task) => Leave(s, task)
    case LWake => s.(pc := Head)
    case LRound(later) => Round(plan, s, later)
    case LFinish => Finish(s)
  }
}
