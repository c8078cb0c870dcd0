/** What every reachable state of the scheduler keeps, over every interleaving of its steps. */
module ReplaySafety {
  import opened Options
  import opened ReplayModel

  // Which segments a round picks.

  predicate Sorted(s: State, order: seq<nat>) {
    forall j, k | 0 <= j < k < |order| :: DueAt(s, order[j]) <= DueAt(s, order[k])
  }

  predicate Distinct(order: seq<nat>) {
    forall j, k | 0 <= j < k < |order| :: order[j] != order[k]
  }

  lemma {:induction false} InsertShape(s: State, order: seq<nat>, i: nat)
    requires Sorted(s, order) && Distinct(order) && i !in order
    ensures var all := Insert(s, order, i);
            Sorted(s, all) && Distinct(all) && (forall j: nat :: j in all <==> j in order || j == i)
    decreases |order|
  {
    hide DueAt;
    if order != [] && DueAt(s, order[|order| - 1]) > DueAt(s, i) {
      var init, last := order[..|order| - 1], order[|order| - 1];
      assert order == init + [last];
      InsertShape(s, init, i);
      var all := Insert(s, init, i);
      forall k | 0 <= k < |all| ensures DueAt(s, all[k]) <= DueAt(s, last) && all[k] != last {
        assert all[k] in all;
        if all[k] in init {
          var m :| 0 <= m < |init| && init[m] == all[k];
          assert order[m] == init[m];
        }
      }
    }
  }

  lemma {:induction false} DueOrderShape(plan: Plan, s: State, n: nat)
    requires Fits(plan, s) && n <= |s.segments|
    ensures var order := DueOrder(plan, s, n);
            Sorted(s, order) && Distinct(order) && (forall j: nat :: j in order <==> j < n && Due(plan, s, j))
  {
    hide Due, Insert;
    if n > 0 {
      DueOrderShape(plan, s, n - 1);
      if Due(plan, s, n - 1) {
        InsertShape(s, DueOrder(plan, s, n - 1), n - 1);
      }
    }
  }

  /**
   A round picks due segments only, each once, as many as the cap leaves room for,
   and never passes over a due segment for one that is due later.
   */
  lemma NeverPassedOver(plan: Plan, s: State)
    requires Fits(plan, s)
    ensures var picked := Picked(plan, s);
            && Distinct(picked)
            && (forall j <- picked :: Due(plan, s, j))
            && (forall i: nat, j: nat | Due(plan, s, i) && i !in picked && j in picked :: DueAt(s, j) <= DueAt(s, i))
            && (forall i: nat | Due(plan, s, i) && i !in picked :: !HasCapacity(plan, s, |picked| + 1))
            && (HasCapacity(plan, s, 0) ==> HasCapacity(plan, s, |picked|))
  {
    hide Due;
    DueOrderShape(plan, s, |s.segments|);
    var order := DueOrder(plan, s, |s.segments|);
    var picked := Picked(plan, s);
    assert forall k | 0 <= k < |picked| :: picked[k] == order[k];
    forall j | j in picked ensures Due(plan, s, j) {
      assert j in order;
    }
    forall i: nat | Due(plan, s, i) && i !in picked
      ensures forall j <- picked :: DueAt(s, j) <= DueAt(s, i)
      ensures !HasCapacity(plan, s, |picked| + 1)
    {
      DueBelow(plan, s, i);
      assert i in order;
      var m :| 0 <= m < |order| && order[m] == i;
      assert forall k | 0 <= k < |picked| :: picked[k] != i;
      forall j | j in picked ensures DueAt(s, j) <= DueAt(s, i) {
        var k :| 0 <= k < |picked| && picked[k] == j;
        assert order[k] == j;
      }
    }
  }

  lemma DueBelow(plan: Plan, s: State, i: nat)
    requires Fits(plan, s) && Due(plan, s, i)
    ensures i < |s.segments|
  {
  }

  // What the history says of one segment.

  function RecordsOf(log: seq<Record>, i: nat): seq<nat> {
    if log == [] then []
    else
      var last := log[|log| - 1];
      RecordsOf(log[..|log| - 1], i) + (if last.task.segment == i then [last.task.record] else [])
  }

  function Upto(n: nat): seq<nat> { seq(n, k => k) }

  lemma InUpto(k: nat, n: nat)
    ensures k in Upto(n) <==> k < n
  {
    if k < n { assert Upto(n)[k] == k; }
  }

  lemma UptoNext(n: nat)
    ensures Upto(n + 1) == Upto(n) + [n]
  {
  }

  lemma RecordsAppend(log: seq<Record>, r: Record, i: nat)
    ensures RecordsOf(log + [r], i) == RecordsOf(log, i) + (if r.task.segment == i then [r.task.record] else [])
  {
    assert (log + [r])[..|log|] == log;
  }

  /** When a request completed, by its first entry in the log. */
  function CompletedAt(log: seq<Record>, task: Task): Option<real> {
    if log == [] then None
    else
      var earlier := CompletedAt(log[..|log| - 1], task);
      if earlier.Some? then earlier
      else if log[|log| - 1].task == task then Some(log[|log| - 1].at)
      else None
  }

  lemma CompletedAppend(log: seq<Record>, r: Record, task: Task)
    ensures CompletedAt(log + [r], task)
            == if CompletedAt(log, task).Some? then CompletedAt(log, task)
               else if r.task == task then Some(r.at) else None
  {
    assert (log + [r])[..|log|] == log;
  }

  lemma {:induction false} CompletedIsLogged(log: seq<Record>, task: Task)
    ensures CompletedAt(log, task).Some? <==> task.record in RecordsOf(log, task.segment)
    decreases |log|
  {
    if log != [] {
      CompletedIsLogged(log[..|log| - 1], task);
    }
  }

  /**
   The virtual time before which a record may not go out: the segment's arrival, or
   the completion of the record before it plus the think time.
   */
  function DueTime(plan: Plan, completions: seq<Record>, task: Task): Option<real>
    requires task.segment < |plan.segments|
  {
    if task.record == 0 then Some(StartOffset(plan, task.segment))
    else
      var before := CompletedAt(completions, Task(task.segment, task.record - 1));
      if before.None? then None
      else Some(before.value + ThinkBefore(plan, task.segment, task.record))
  }

  function StartedCount(s: State, i: nat): nat
    requires i < |s.segments|
  {
    s.segments[i].next + (if s.segments[i].running then 1 else 0)
  }

  // One segment: its records went out and came back in order, and it waits for its next due time.
  predicate SegmentKept(plan: Plan, s: State, i: nat)
    requires Fits(plan, s) && i < |s.segments|
  {
    var segment := s.segments[i];
    && segment.next <= Records(plan, i)
    && (segment.running ==> segment.next < Records(plan, i))
    && (segment.running ==> var task := Task(i, segment.next);
                            task in s.rejected || (task in s.inFlight && s.inFlight[task].Sending?))
    && DueTime(plan, s.completions, Task(i, segment.next)) == Some(segment.dueAt)
    && RecordsOf(s.starts, i) == Upto(StartedCount(s, i))
    && RecordsOf(s.completions, i) == Upto(segment.next)
  }

  predicate IsRunning(s: State, task: Task) {
    task.segment < |s.segments| && s.segments[task.segment].running && s.segments[task.segment].next == task.record
  }

  predicate OnTime(plan: Plan, s: State, r: Record) {
    && r.task.segment < |plan.segments|
    && DueTime(plan, s.completions, r.task).Some?
    && DueTime(plan, s.completions, r.task).value <= r.at
  }

  predicate Kept(plan: Plan, s: State) {
    && Fits(plan, s)
    && (forall i | 0 <= i < |s.segments| :: SegmentKept(plan, s, i))
    && (forall task <- s.inFlight :: task.segment < |s.segments|)
    && (forall task <- s.inFlight :: s.inFlight[task].Sending? ==> IsRunning(s, task) && task !in s.rejected)
    && (forall task <- s.rejected :: IsRunning(s, task))
    && (forall k | 0 <= k < |s.starts| :: OnTime(plan, s, s.starts[k]))
    && (s.rejected != {} <==> s.failure.Some? || s.nullRejection)
    && (s.stopped <==> s.rejected != {})
  }

  // The wait the main loop is in is a wait for something.
  predicate Parked(plan: Plan, s: State)
    requires Fits(plan, s)
  {
    match s.pc
    case Head => true
    case Sleeping(_) => s.inFlight == map[]
    case Racing(raced, _) => raced != {} && raced <= s.inFlight.Keys
    case Draining => Exits(plan, s) || s.rejected != {}
    case Returned => s.inFlight == map[] && s.failure.None? && (Remaining(plan, s) ==> s.rejected != {} || s.aborted)
    case Failed(_) => s.inFlight == map[]
    case Canceled => s.inFlight == map[]
  }

  predicate Safe(plan: Plan, s: State) { Kept(plan, s) && Parked(plan, s) }

  lemma InitSafe(plan: Plan, now: real, aborted: bool)
    ensures Safe(plan, Init(plan, now, aborted))
  {
  }

  lemma StartKeeps(plan: Plan, s: State, i: nat)
    requires Kept(plan, s) && Due(plan, s, i)
    ensures Kept(plan, Start(s, i))
    ensures Running(Start(s, i)) == Running(s) + {i} && i !in Running(s)
  {
    hide RecordsOf, CompletedAt, Upto, DueTime;
    var t := Start(s, i);
    var task := Task(i, s.segments[i].next);
    UptoNext(s.segments[i].next);
    forall j | 0 <= j < |t.segments|
      ensures SegmentKept(plan, t, j)
    {
      assert SegmentKept(plan, s, j);
      RecordsAppend(s.starts, Record(task, VirtualNow(s)), j);
    }
    assert SegmentKept(plan, s, i);
  }

  lemma StartFrame(s: State, i: nat)
    requires i < |s.segments|
    ensures var t := Start(s, i);
            && t == s.(segments := t.segments, inFlight := t.inFlight, starts := t.starts)
            && |t.starts| == |s.starts| + 1
            && t.segments == s.segments[i := s.segments[i].(running := true)]
            && t.inFlight != map[]
  {
    assert Task(i, s.segments[i].next) in Start(s, i).inFlight;
  }

  lemma {:induction false} StartAllFrame(s: State, picked: seq<nat>)
    requires AllBelow(picked, |s.segments|) && Distinct(picked)
    ensures var t := StartAll(s, picked);
            && t == s.(segments := t.segments, inFlight := t.inFlight, starts := t.starts)
            && |t.starts| == |s.starts| + |picked|
            && (forall j: nat | j < |s.segments| ::
                  t.segments[j] == if j in picked then s.segments[j].(running := true) else s.segments[j])
            && (picked != [] ==> t.inFlight != map[]) && (picked == [] ==> t == s)
    decreases |picked|
  {
    hide Start;
    if picked != [] {
      var init, i := picked[..|picked| - 1], picked[|picked| - 1];
      assert picked == init + [i];
      StartAllFrame(s, init);
      StartFrame(StartAll(s, init), i);
    }
  }

  /** A segment that others' starts leave alone is still due. */
  lemma DueStays(plan: Plan, s: State, picked: seq<nat>, i: nat)
    requires Fits(plan, s) && AllBelow(picked, |s.segments|) && Distinct(picked)
    requires Due(plan, s, i) && i !in picked
    ensures Due(plan, StartAll(s, picked), i)
  {
    hide StartAll;
    StartAllFrame(s, picked);
  }

  lemma {:induction false} StartAllKeeps(plan: Plan, s: State, picked: seq<nat>)
    requires Kept(plan, s) && AllBelow(picked, |s.segments|) && Distinct(picked)
    requires forall j <- picked :: Due(plan, s, j)
    ensures var t := StartAll(s, picked);
            Kept(plan, t) && |Running(t)| == |Running(s)| + |picked|
    decreases |picked|
  {
    hide Kept, Running, Start, Due;
    KeptFits(plan, s);
    if picked != [] {
      var init, i := picked[..|picked| - 1], picked[|picked| - 1];
      assert picked == init + [i];
      forall j | j in init ensures Due(plan, s, j) { assert j in picked; }
      assert i in picked && i !in init;
      StartAllKeeps(plan, s, init);
      DueStays(plan, s, init, i);
      StartKeeps(plan, StartAll(s, init), i);
    }
  }

  lemma KeptFits(plan: Plan, s: State)
    requires Kept(plan, s)
    ensures InRange(plan, s)
  {
  }

  /** Every running segment whose request has not been rejected has it in flight. */
  lemma NothingInFlight(plan: Plan, s: State)
    requires Kept(plan, s) && s.inFlight == map[] && s.rejected == {}
    ensures Running(s) == {}
  {
    forall i | 0 <= i < |s.segments| ensures !s.segments[i].running {
      assert SegmentKept(plan, s, i);
    }
  }

  lemma {:induction false} NextDueShape(plan: Plan, s: State, n: nat)
    requires Fits(plan, s) && n <= |s.segments|
    ensures var d := NextDue(plan, s, n);
            && (d.None? <==> forall i | 0 <= i < n :: !Waiting(plan, s, i))
            && (d.Some? ==> (exists i | 0 <= i < n :: Waiting(plan, s, i) && s.segments[i].dueAt == d.value)
                            && (forall i | 0 <= i < n && Waiting(plan, s, i) :: d.value <= s.segments[i].dueAt))
  {
    hide Waiting;
    if n > 0 {
      NextDueShape(plan, s, n - 1);
    }
  }

  /**
   The break in the loop ("nothing in flight and nothing to wait for") needs a
   rejected request, and one that left no failure behind.
   */
  lemma BreakNeedsLostFailure(plan: Plan, s: State, later: real)
    requires Kept(plan, s) && !Exits(plan, s) && Round(plan, s, later).pc.Draining? && s.pc.Head?
    ensures s.nullRejection
  {
    hide Kept, Due;
    assert Fits(plan, s) by { KeptFits(plan, s); }
    NeverPassedOver(plan, s);
    StartAllKeeps(plan, s, Picked(plan, s));
    StartAllFrame(s, Picked(plan, s));
    var begun := StartAll(s, Picked(plan, s));
    KeptFits(plan, begun);
    NextDueShape(plan, begun.(now := begun.now + later), |begun.segments|);
    var i :| 0 <= i < |s.segments| && HasRecords(plan, s, i);
    assert !Waiting(plan, begun.(now := begun.now + later), i);
    assert begun.segments[i].running;
    assert begun.inFlight == map[] && begun == s;
    assert i in Running(s);
    if s.rejected == {} { NothingInFlight(plan, s); }
    assert s.nullRejection by { RejectedShows(plan, s); }
  }

  lemma RejectedShows(plan: Plan, s: State)
    requires Kept(plan, s)
    ensures s.rejected != {} <==> s.failure.Some? || s.nullRejection
  {
  }

  lemma KeptFrame(plan: Plan, s: State, t: State)
    requires Kept(plan, s)
    requires t == s.(now := t.now, skipped := t.skipped, aborted := t.aborted, pc := t.pc)
    ensures Kept(plan, t)
  {
    forall i | 0 <= i < |t.segments| ensures SegmentKept(plan, t, i) {
      assert SegmentKept(plan, s, i);
    }
  }

  lemma AwaitShape(plan: Plan, s: State)
    requires Fits(plan, s) && s.pc.Head?
    ensures var t := Await(plan, s);
            && t == s.(skipped := t.skipped, pc := t.pc)
            && (t.pc.Head? || t.pc.Sleeping? || t.pc.Racing? || t.pc.Draining?)
            && (t.pc.Sleeping? || t.pc.Draining? ==> s.inFlight == map[])
            && (t.pc.Racing? ==> t.pc.raced == s.inFlight.Keys && t.pc.raced != {})
  {
    hide NextDue, HasCapacity;
    if s.inFlight.Keys == {} {
      assert s.inFlight == map[];
    }
  }

  lemma RoundSafe(plan: Plan, s: State, later: real)
    requires Kept(plan, s) && s.pc.Head? && later >= 0.0
    ensures Safe(plan, Round(plan, s, later))
  {
    hide Kept, Exits, Due, Await;
    KeptFits(plan, s);
    var t := Round(plan, s, later);
    if Exits(plan, s) {
      KeptFrame(plan, s, t);
      assert Exits(plan, t) by { ExitsFrame(plan, s, t); }
    } else {
      NeverPassedOver(plan, s);
      StartAllKeeps(plan, s, Picked(plan, s));
      StartAllFrame(s, Picked(plan, s));
      var begun := StartAll(s, Picked(plan, s));
      KeptFits(plan, begun);
      AwaitShape(plan, begun.(now := begun.now + later));
      KeptFrame(plan, begun, t);
      if t.pc.Draining? {
        BreakNeedsLostFailure(plan, s, later);
        RejectedShows(plan, s);
      }
    }
  }

  lemma ExitsFrame(plan: Plan, s: State, t: State)
    requires Fits(plan, s) && Exits(plan, s)
    requires t == s.(pc := t.pc)
    ensures Exits(plan, t)
  {
    if !Remaining(plan, s) {
      forall i | 0 <= i < |t.segments| ensures !HasRecords(plan, t, i) {
        assert !HasRecords(plan, s, i);
      }
    }
  }

  lemma ResolveKeeps(plan: Plan, s: State, task: Task)
    requires Kept(plan, s) && task in s.inFlight && s.inFlight[task].Sending?
    ensures Kept(plan, Resolve(plan, s, task))
  {
    hide RecordsOf, CompletedAt, Upto;
    var t := Resolve(plan, s, task);
    var r := Record(task, VirtualNow(s));
    assert IsRunning(s, task);
    assert SegmentKept(plan, s, task.segment);
    UptoNext(task.record);
    forall i | 0 <= i < |t.segments|
      ensures SegmentKept(plan, t, i)
    {
      assert SegmentKept(plan, s, i);
      RecordsAppend(s.completions, r, i);
      CompletedIsLogged(s.completions, task);
      InUpto(task.record, s.segments[task.segment].next);
      if i == task.segment {
        CompletedAppend(s.completions, r, task);
      } else if s.segments[i].next > 0 {
        CompletedAppend(s.completions, r, Task(i, s.segments[i].next - 1));
      }
    }
    forall k | 0 <= k < |t.starts|
      ensures OnTime(plan, t, t.starts[k])
    {
      assert OnTime(plan, s, s.starts[k]);
      var started := s.starts[k].task;
      if started.record > 0 {
        CompletedAppend(s.completions, r, Task(started.segment, started.record - 1));
      }
    }
    forall other | other in t.rejected ensures IsRunning(t, other) {
      assert IsRunning(s, other);
    }
    forall other | other in t.inFlight && t.inFlight[other].Sending?
      ensures IsRunning(t, other) && other !in t.rejected
    {
      assert IsRunning(s, other);
    }
  }

  lemma RejectKeeps(plan: Plan, s: State, task: Task, error: Option<Thrown>)
    requires Kept(plan, s) && task in s.inFlight && s.inFlight[task].Sending?
    ensures Kept(plan, Reject(s, task, error))
  {
    var t := Reject(s, task, error);
    assert IsRunning(s, task);
    assert task in t.rejected;
    forall i | 0 <= i < |t.segments| ensures SegmentKept(plan, t, i) {
      assert SegmentKept(plan, s, i);
    }
    forall other | other in t.rejected ensures IsRunning(t, other) {
      assert IsRunning(s, other);
    }
    forall other | other in t.inFlight && t.inFlight[other].Sending?
      ensures IsRunning(t, other) && other !in t.rejected
    {
      assert IsRunning(s, other);
    }
    forall k | 0 <= k < |t.starts| ensures OnTime(plan, t, t.starts[k]) {
      assert OnTime(plan, s, s.starts[k]);
    }
  }

  lemma LeaveKeeps(plan: Plan, s: State, task: Task)
    requires Kept(plan, s) && task in s.inFlight && s.inFlight[task].Settled?
    ensures Kept(plan, Leave(s, task))
  {
    var t := Leave(s, task);
    forall i | 0 <= i < |t.segments| ensures SegmentKept(plan, t, i) {
      assert SegmentKept(plan, s, i);
    }
    forall other | other in t.inFlight && t.inFlight[other].Sending? ensures IsRunning(t, other) {
      assert IsRunning(s, other);
    }
    forall k | 0 <= k < |t.starts| ensures OnTime(plan, t, t.starts[k]) {
      assert OnTime(plan, s, s.starts[k]);
    }
  }

  /** What ends the loop goes on to do so, unless a null rejection takes the place of an undefined one. */
  lemma ExitsStays(plan: Plan, s: State, l: Label)
    requires Kept(plan, s) && Enabled(plan, s, l) && Exits(plan, s) && !l.LRound?
    ensures InRange(plan, s) && Fits(plan, Step(plan, s, l))
    ensures Exits(plan, Step(plan, s, l)) || (l.LReject? && Step(plan, s, l).nullRejection)
  {
    var t := Step(plan, s, l);
    if !Remaining(plan, s) {
      forall i | 0 <= i < |t.segments| ensures !HasRecords(plan, t, i) {
        assert !HasRecords(plan, s, i) && SegmentKept(plan, s, i);
        if l.LResolve? { assert IsRunning(s, l.task); }
      }
    }
  }

  /** Every step keeps the invariant. */
  lemma StepSafe(plan: Plan, s: State, l: Label)
    requires Safe(plan, s) && Enabled(plan, s, l)
    ensures InRange(plan, s) && Safe(plan, Step(plan, s, l))
  {
    hide Kept, Exits, Round;
    KeptFits(plan, s);
    var t := Step(plan, s, l);
    match l {
      case LTick(_) => KeptFrame(plan, s, t);
      case LAbort => KeptFrame(plan, s, t);
      case LResolve(task) => ResolveKeeps(plan, s, task);
      case LReject(task, error) => RejectKeeps(plan, s, task, error);
      case LLeave(task) => LeaveKeeps(plan, s, task);
      case LWake => KeptFrame(plan, s, t);
      case LRound(later) => RoundSafe(plan, s, later);
      case LFinish => KeptFrame(plan, s, t);
    }
    StepParked(plan, s, l);
  }

  lemma StepParked(plan: Plan, s: State, l: Label)
    requires Safe(plan, s) && Enabled(plan, s, l) && InRange(plan, s) && Kept(plan, Step(plan, s, l))
    ensures Parked(plan, Step(plan, s, l))
  {
    hide Kept, Exits, Round;
    KeptFits(plan, s);
    var t := Step(plan, s, l);
    KeptFits(plan, t);
    if s.pc.Draining? && !l.LRound? && Exits(plan, s) {
      ExitsStays(plan, s, l);
      assert Exits(plan, t) || t.rejected != {};
    }
    if l.LRound? {
      RoundSafe(plan, s, l.later);
    } else if l.LFinish? {
      assert t.pc.Returned? && Remaining(plan, t) ==> t.rejected != {} by { FinishParked(plan, s); }
    } else if s.pc.Returned? {
      assert forall i :: HasRecords(plan, t, i) == HasRecords(plan, s, i);
    }
  }

  lemma FinishParked(plan: Plan, s: State)
    requires Fits(plan, s) && Parked(plan, s) && s.pc.Draining? && s.inFlight == map[]
    ensures Finish(s).pc.Returned? && Remaining(plan, Finish(s)) ==> s.rejected != {}
  {
    if Remaining(plan, Finish(s)) {
      var i :| 0 <= i < |s.segments| && HasRecords(plan, Finish(s), i);
      assert HasRecords(plan, s, i);
    }
  }
}
