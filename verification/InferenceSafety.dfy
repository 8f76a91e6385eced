/**
 What every schedule of the inference queue keeps, how it drains, and when the wedge alarm is false.
 */
module InferenceSafety {
  import opened Common
  import opened InferenceQueue

  ghost predicate IsRun(s: Server, steps: seq<Step>, last: Server)
    decreases |steps|
  {
    if steps == [] then last == s
    else Enabled(s, steps[0]) && IsRun(Post(s, steps[0]), steps[1..], last)
  }

  lemma {:induction false} RunKeepsInv(s: Server, steps: seq<Step>, last: Server)
    requires Inv(s) && IsRun(s, steps, last)
    ensures Inv(last)
    decreases |steps|
  {
    if steps != [] {
      KeepsInv(s, steps[0]);
      RunKeepsInv(Post(s, steps[0]), steps[1..], last);
    }
  }

  lemma {:induction false} RunKeepsCapacity(s: Server, steps: seq<Step>, last: Server)
    requires IsRun(s, steps, last)
    ensures last.capacity == s.capacity
    decreases |steps|
  {
    if steps != [] { RunKeepsCapacity(Post(s, steps[0]), steps[1..], last); }
  }

  ghost predicate Reachable(capacity: nat, clock: Time, steps: seq<Step>, s: Server) {
    IsRun(Start(capacity, clock), steps, s)
  }

  lemma ReachableOk(capacity: nat, clock: Time, steps: seq<Step>, s: Server)
    requires Reachable(capacity, clock, steps, s)
    ensures Inv(s) && s.capacity == capacity
  {
    StartOk(capacity, clock);
    RunKeepsInv(Start(capacity, clock), steps, s);
    RunKeepsCapacity(Start(capacity, clock), steps, s);
  }

  /** The admission counter is the number of live admitted requests, and is bounded. */
  lemma AdmissionBound(capacity: nat, clock: Time, steps: seq<Step>, s: Server)
    requires Reachable(capacity, clock, steps, s)
    ensures s.admitted == |Live(s.phases)|
    ensures 0 <= s.admitted <= capacity + 1
  {
    ReachableOk(capacity, clock, steps, s);
  }

  /** While a batch occupies the executor, its own request is the only one that holds the lock. */
  lemma SlotIsExclusive(capacity: nat, clock: Time, steps: seq<Step>, s: Server)
    requires Reachable(capacity, clock, steps, s)
    ensures s.locked <==> Holders(s.phases) != {}
    ensures forall a, b :: a in Holders(s.phases) && b in Holders(s.phases) ==> a == b
    ensures !s.worker.Idle? ==> s.locked && Holders(s.phases) == {s.worker.id}
  {
    ReachableOk(capacity, clock, steps, s);
    forall a | a in Holders(s.phases) ensures Holders(s.phases) == {a} && s.locked {
      OnlyHolder(s, a);
    }
    if !s.worker.Idle? { assert s.worker.id in Holders(s.phases); }
    assert s.locked ==> Holders(s.phases) != {};
  }

  /** At quiescence everything is given back. */
  lemma Quiescence(capacity: nat, clock: Time, steps: seq<Step>, s: Server)
    requires Reachable(capacity, clock, steps, s) && Live(s.phases) == {}
    ensures s.admitted == 0 && !s.locked && s.waiters == [] && s.worker.Idle?
    ensures s.inflight.Some? <==> s.refused
  {
    ReachableOk(capacity, clock, steps, s);
    NobodyLive(s);
  }

  lemma NobodyLive(s: Server)
    requires Inv(s) && Live(s.phases) == {}
    ensures !s.locked && s.waiters == [] && s.worker.Idle?
  {
    assert forall id :: id in s.phases && !s.phases[id].Finished? ==> id in Live(s.phases);
    assert Holders(s.phases) == {} && QueuedIds(s.phases) == {} && BatchIds(s.phases) == {};
  }

  /** Every request is counted once, by the way it ended. */
  lemma RepliesAreCounted(capacity: nat, clock: Time, steps: seq<Step>, s: Server)
    requires Reachable(capacity, clock, steps, s)
    ensures s.metrics.completed == |Ended(s.phases, Answered)|
    ensures s.metrics.failed == |Ended(s.phases, InferenceFailed)|
    ensures s.metrics.rejected == |Ended(s.phases, QueueFull)| + |Ended(s.phases, DeadlineExceeded)|
  {
    ReachableOk(capacity, clock, steps, s);
  }

  // ---------- A reply is about the request's own batch ----------

  /** The run ends the thread of this request, with or without a result. */
  ghost predicate ThreadEnded(s: Server, steps: seq<Step>, last: Server, id: Id, ok: bool)
    requires IsRun(s, steps, last)
    decreases |steps|
  {
    steps != [] &&
    ((s.worker == Running(id) && steps[0] == EndThread(ok)) || ThreadEnded(Post(s, steps[0]), steps[1..], last, id, ok))
  }

  predicate Produced(w: Worker, id: Id, ok: bool) {
    (w.Returned? || w.Resolved?) && w.id == id && w.answer == if ok then Success else Failure
  }

  /** Replied with the batch's own outcome. */
  predicate Told(s: Server, id: Id, ok: bool) { In(s, id, Finished(if ok then Answered else InferenceFailed)) }

  // What each stretch of code before the batch leaves of its request's phase and of the executor.

  lemma ArrivalPhase(s: Server, id: Id, valid: bool)
    requires id !in s.phases
    ensures var s' := Arrival(s, id, valid);
            && id in s'.phases && s'.phases == s.phases[id := s'.phases[id]] && s'.worker == s.worker
            && s'.phases[id] in {Finished(Unavailable), Finished(Invalid), Finished(QueueFull), Checking, Queued}
  {
  }

  lemma QueuePhase(s: Server, id: Id, wake: Wake)
    ensures var s' := QueueResumed(s, id, wake);
            && id in s'.phases && s'.phases == s.phases[id := s'.phases[id]] && s'.worker == s.worker
            && s'.phases[id] in {Checking, Finished(DeadlineExceeded), Finished(Aborted)}
  {
  }

  lemma CheckPhase(s: Server, id: Id, check: Check)
    ensures var s' := CheckResumed(s, id, check);
            && id in s'.phases && s'.phases == s.phases[id := s'.phases[id]]
            && s'.phases[id] in {Finished(ClientGone), Finished(Aborted), Finished(Unprepared), Finished(Crashed), Inferring}
            && (s'.worker == s.worker || s'.worker == Submitted(id))
  {
  }

  /** What a step other than the end of an await can make of a request's phase. */
  lemma OtherPhases(s: Server, step: Step, id: Id)
    requires Enabled(s, step) && !step.ResumeAwait? && id in Post(s, step).phases
    ensures (id in s.phases && Post(s, step).phases[id] == s.phases[id]) || BeforeBatch(Post(s, step).phases[id])
    ensures id in s.phases && !s.phases[id].Queued? && !s.phases[id].Checking? ==> Post(s, step).phases[id] == s.phases[id]
  {
    match step
    case Arrive(other, valid) => ArrivalPhase(s, other, valid);
    case ResumeQueued(other, wake) => QueuePhase(s, other, wake);
    case ResumeChecking(other, check) => CheckPhase(s, other, check);
    case _ =>
  }

  predicate BeforeBatch(p: Phase) { !p.Draining? && p != Finished(Answered) && p != Finished(InferenceFailed) }

  lemma OnlyThreadProduces(s: Server, step: Step, id: Id, ok: bool)
    requires Enabled(s, step)
    ensures Produced(Post(s, step).worker, id, ok) ==> Produced(s.worker, id, ok) || (s.worker == Running(id) && step == EndThread(ok))
  {
    match step
    case Arrive(other, valid) => ArrivalPhase(s, other, valid);
    case ResumeQueued(other, wake) => QueuePhase(s, other, wake);
    case ResumeChecking(other, check) => CheckPhase(s, other, check);
    case _ =>
  }

  lemma AwaitTells(s: Server, other: Id, cancelled: bool, id: Id, ok: bool)
    requires Inv(s) && Enabled(s, ResumeAwait(other, cancelled))
    ensures Told(AwaitResumed(s, other, cancelled), id, ok) ==> Told(s, id, ok) || Produced(s.worker, id, ok)
  {
  }

  lemma ToldByBatch(s: Server, step: Step, id: Id, ok: bool)
    requires Inv(s) && Enabled(s, step) && (Told(Post(s, step), id, ok) || Produced(Post(s, step).worker, id, ok))
    ensures Told(s, id, ok) || Produced(s.worker, id, ok) || (s.worker == Running(id) && step == EndThread(ok))
  {
    OnlyThreadProduces(s, step, id, ok);
    if step.ResumeAwait? {
      AwaitTells(s, step.id, step.cancelled, id, ok);
    } else if Told(Post(s, step), id, ok) {
      OtherPhases(s, step, id);
    }
  }

  lemma {:induction false} ToldEnded(s: Server, steps: seq<Step>, last: Server, id: Id, ok: bool)
    requires Inv(s) && IsRun(s, steps, last) && (Told(last, id, ok) || Produced(last.worker, id, ok))
    ensures Told(s, id, ok) || Produced(s.worker, id, ok) || ThreadEnded(s, steps, last, id, ok)
    decreases |steps|
  {
    if steps != [] {
      KeepsInv(s, steps[0]);
      ToldEnded(Post(s, steps[0]), steps[1..], last, id, ok);
      if Told(Post(s, steps[0]), id, ok) || Produced(Post(s, steps[0]).worker, id, ok) { ToldByBatch(s, steps[0], id, ok); }
    }
  }

  /** Not cancelled while its batch was under way. */
  predicate Undisturbed(steps: seq<Step>, id: Id) { forall i :: 0 <= i < |steps| ==> steps[i] != ResumeAwait(id, true) }

  /** The thread has ended with this outcome, and the request has it or is about to get it, unless it was cancelled. */
  predicate Due(s: Server, id: Id, ok: bool, cancelled: bool) {
    || Told(s, id, ok)
    || (Produced(s.worker, id, ok) && (In(s, id, Inferring) || (cancelled && In(s, id, Draining))))
    || (cancelled && In(s, id, Finished(Aborted)))
  }

  lemma DueKept(s: Server, step: Step, id: Id, ok: bool, cancelled: bool)
    requires Inv(s) && Enabled(s, step) && Due(s, id, ok, cancelled) && (cancelled || step != ResumeAwait(id, true))
    ensures Due(Post(s, step), id, ok, cancelled)
  {
    if step.ResumeAwait? {
      AwaitKeepsDue(s, step.id, step.cancelled, id, ok, cancelled);
    } else {
      OthersKeep(s, step, id);
      OtherPhases(s, step, id);
      if Produced(s.worker, id, ok) { OthersKeepResult(s, step, id, ok); }
    }
  }

  lemma AwaitKeepsDue(s: Server, other: Id, now: bool, id: Id, ok: bool, cancelled: bool)
    requires Inv(s) && Enabled(s, ResumeAwait(other, now)) && Due(s, id, ok, cancelled) && (cancelled || other != id || !now)
    ensures Due(AwaitResumed(s, other, now), id, ok, cancelled)
  {
    BatchIsWorker(s, other);
    AwaitPhase(s, other, now);
    assert other != id ==> !Produced(s.worker, id, ok) && AwaitResumed(s, other, now).phases[id] == s.phases[id];
  }

  lemma BatchIsWorker(s: Server, id: Id)
    requires Inv(s) && (In(s, id, Inferring) || In(s, id, Draining))
    ensures !s.worker.Idle? && s.worker.id == id
  {
    assert id in BatchIds(s.phases);
  }

  lemma AwaitPhase(s: Server, id: Id, cancelled: bool)
    requires Enabled(s, ResumeAwait(id, cancelled))
    ensures var s' := AwaitResumed(s, id, cancelled);
            if FutureDone(s, id)
            then s'.phases == s.phases[id := Finished(if cancelled || s.phases[id].Draining? then Aborted else ReplyTo(s.worker.answer))]
            else s'.phases == s.phases[id := Draining] && s'.worker == s.worker
  {
  }

  lemma OthersKeep(s: Server, step: Step, id: Id)
    requires Enabled(s, step) && !step.ResumeAwait? && id in s.phases
    ensures id in Post(s, step).phases
  {
    match step
    case Arrive(other, valid) => ArrivalPhase(s, other, valid);
    case ResumeQueued(other, wake) => QueuePhase(s, other, wake);
    case ResumeChecking(other, check) => CheckPhase(s, other, check);
    case _ =>
  }

  lemma OthersKeepResult(s: Server, step: Step, id: Id, ok: bool)
    requires Inv(s) && Enabled(s, step) && !step.ResumeAwait? && Produced(s.worker, id, ok)
    ensures Produced(Post(s, step).worker, id, ok)
  {
    match step
    case Arrive(other, valid) => ArrivalPhase(s, other, valid);
    case ResumeQueued(other, wake) => QueuePhase(s, other, wake);
    case ResumeChecking(other, check) =>
      CheckPhase(s, other, check);
      assert other in Holders(s.phases);
      OnlyHolder(s, other);
    case _ =>
  }

  /** What the thread's end leads to. */
  lemma {:induction false} EndedIsDue(s: Server, steps: seq<Step>, last: Server, id: Id, ok: bool, cancelled: bool)
    requires Inv(s) && IsRun(s, steps, last) && (Due(s, id, ok, cancelled) || ThreadEnded(s, steps, last, id, ok))
    requires cancelled || (Undisturbed(steps, id) && !In(s, id, Draining))
    ensures Due(last, id, ok, cancelled)
    decreases |steps|
  {
    if steps != [] {
      var next := Post(s, steps[0]);
      KeepsInv(s, steps[0]);
      if Due(s, id, ok, cancelled) {
        DueKept(s, steps[0], id, ok, cancelled);
      } else if s.worker == Running(id) && steps[0] == EndThread(ok) {
        EndMakesDue(s, id, ok, cancelled);
      }
      if !cancelled { OnlyCancelDrains(s, steps[0], id); }
      assert forall i :: 0 <= i < |steps| - 1 ==> steps[1..][i] == steps[i + 1];
      EndedIsDue(next, steps[1..], last, id, ok, cancelled);
    }
  }

  lemma EndMakesDue(s: Server, id: Id, ok: bool, cancelled: bool)
    requires Inv(s) && s.worker == Running(id) && (cancelled || !In(s, id, Draining))
    ensures Due(Post(s, EndThread(ok)), id, ok, cancelled)
  {
    assert id in BatchIds(s.phases);
  }

  lemma OnlyCancelDrains(s: Server, step: Step, id: Id)
    requires Enabled(s, step) && step != ResumeAwait(id, true) && !In(s, id, Draining)
    ensures !In(Post(s, step), id, Draining)
  {
    if !step.ResumeAwait? && id in Post(s, step).phases { OtherPhases(s, step, id); }
  }

  /**
   In every schedule a request is answered only if its own thread ended with a result, and failed only if it
   ended without one; a request whose thread ended and that was not cancelled meanwhile ends with just that,
   and a cancelled one ends so or aborted.
   */
  lemma RepliesAreEarned(capacity: nat, clock: Time, steps: seq<Step>, s: Server, id: Id, ok: bool)
    requires Reachable(capacity, clock, steps, s) && id in s.phases
    ensures var ended := ThreadEnded(Start(capacity, clock), steps, s, id, ok);
            && (s.phases[id] == Finished(if ok then Answered else InferenceFailed) ==> ended)
            && (ended && s.phases[id].Finished? && Undisturbed(steps, id) ==>
                  s.phases[id].reply == if ok then Answered else InferenceFailed)
            && (ended && s.phases[id].Finished? ==>
                  s.phases[id].reply == (if ok then Answered else InferenceFailed) || s.phases[id].reply == Aborted)
  {
    StartOk(capacity, clock);
    var start := Start(capacity, clock);
    if Told(s, id, ok) { ToldEnded(start, steps, s, id, ok); }
    if ThreadEnded(start, steps, s, id, ok) {
      EndedIsDue(start, steps, s, id, ok, true);
      if Undisturbed(steps, id) { EndedIsDue(start, steps, s, id, ok, false); }
    }
  }

  // ---------- The in-flight clock ----------

  /** The clock is started only by the lock holder and stopped only once that batch's future is done. */
  lemma ClockChanges(s: Server, step: Step)
    requires Inv(s) && Enabled(s, step) && Post(s, step).inflight != s.inflight
    ensures Post(s, step).inflight.Some? ==>
              && step.ResumeChecking? && Holders(s.phases) == {step.id} && s.worker.Idle?
              && Post(s, step).inflight == Some(s.clock)
    ensures Post(s, step).inflight.None? ==>
              step.ResumeAwait? && Holders(s.phases) == {step.id} && FutureDone(s, step.id)
  {
    match step
    case ResumeChecking(id, check) =>
      assert id in Holders(s.phases);
      OnlyHolder(s, id);
    case ResumeAwait(id, cancelled) =>
      assert id in Holders(s.phases);
      OnlyHolder(s, id);
    case _ => OthersKeepClock(s, step);
  }

  lemma OthersKeepClock(s: Server, step: Step)
    requires Enabled(s, step) && !step.ResumeChecking? && !step.ResumeAwait?
    ensures Post(s, step).inflight == s.inflight
  {
  }

  predicate Wedged(s: Server, limit: nat) { s.inflight.Some? && s.clock - s.inflight.value > limit }

  /** The alarm sounds once the clock stands more than the limit past the moment it was started. */
  lemma WedgedMeans(s: Server, limit: nat)
    ensures Wedged(s, limit) <==> exists started :: s.inflight == Some(started) && started + limit < s.clock
  {
    if Wedged(s, limit) { assert s.inflight == Some(s.inflight.value) && s.inflight.value + limit < s.clock; }
  }

  /** A request that reaches its submission after the executor was shut down. */
  predicate IsRefusal(s: Server, step: Step) {
    step.ResumeChecking? && step.check == Proceed && s.ready && s.shut
  }

  ghost function Refusals(s: Server, steps: seq<Step>, last: Server): nat
    requires IsRun(s, steps, last)
    decreases |steps|
  {
    if steps == [] then 0
    else (if IsRefusal(s, steps[0]) then 1 else 0) + Refusals(Post(s, steps[0]), steps[1..], last)
  }

  lemma {:induction false} RefusedAfterRefusal(s: Server, steps: seq<Step>, last: Server)
    requires IsRun(s, steps, last)
    ensures last.refused <==> s.refused || Refusals(s, steps, last) > 0
    decreases |steps|
  {
    if steps != [] { RefusedAfterRefusal(Post(s, steps[0]), steps[1..], last); }
  }

  /**
   The health alarm is about a batch that still occupies the executor, exactly unless some request
   of the run submitted to an executor that was already shut down.
   */
  lemma AlarmIsReal(capacity: nat, clock: Time, steps: seq<Step>, s: Server, limit: nat)
    requires Reachable(capacity, clock, steps, s) && Wedged(s, limit)
    ensures !s.worker.Idle? <==> Refusals(Start(capacity, clock), steps, s) == 0
  {
    ReachableOk(capacity, clock, steps, s);
    RefusedAfterRefusal(Start(capacity, clock), steps, s);
  }

  /** A concrete false alarm: the only request is gone, the executor is idle, and the alarm still sounds. */
  lemma FalseAlarm(limit: nat) returns (steps: seq<Step>, s: Server)
    ensures Reachable(0, 0, steps, s) && Live(s.phases) == {} && s.worker.Idle? && Wedged(s, limit)
  {
    var a, b, c, d, e := Arrive(1, true), Close, ShutdownExecutor, ResumeChecking(1, Proceed), Tick(limit + 1);
    var s0 := Start(0, 0);
    var s1 := Post(s0, a);
    var s2 := Post(s1, b);
    var s3 := Post(s2, c);
    var s4 := Post(s3, d);
    s := Post(s4, e);
    steps := [a, b, c, d, e];
    assert steps[1..] == [b, c, d, e] && steps[1..][1..] == [c, d, e];
    assert steps[1..][1..][1..] == [d, e] && steps[1..][1..][1..][1..] == [e] && [e][1..] == [];
    assert IsRun(s4, [e], s);
    assert IsRun(s3, [d, e], s) by { assert [d, e][1..] == [e]; }
    assert IsRun(s2, [c, d, e], s) by { assert [c, d, e][1..] == [d, e]; }
    assert IsRun(s1, [b, c, d, e], s) by { assert [b, c, d, e][1..] == [c, d, e]; }
  }

  // ---------- Progress ----------

  /** Steps the service takes by itself: no arrival, cancellation, shutdown or clock reading. */
  predicate Internal(step: Step) {
    || step.ResumeQueued? || step.ResumeChecking? || (step.ResumeAwait? && !step.cancelled)
    || step.StartThread? || step.EndThread? || step.Notify?
  }

  function WorkerStep(w: Worker): Step
    requires !w.Idle?
  {
    match w
    case Submitted(_) => StartThread
    case Running(_) => EndThread(true)
    case Returned(_, _) => Notify
    case Resolved(id, _) => ResumeAwait(id, false)
  }

  /** No lost wake-up and no deadlock: a live request means some step of the service can run. */
  lemma NeverStuck(s: Server) returns (step: Step)
    requires Inv(s) && Live(s.phases) != {}
    ensures Internal(step) && Enabled(s, step)
  {
    if !s.worker.Idle? {
      assert s.worker.id in BatchIds(s.phases);
      step := WorkerStep(s.worker);
    } else if s.waiters != [] && !s.locked {
      assert s.waiters[0].id in Waiting(s.waiters);
      step := ResumeQueued(s.waiters[0].id, TimedOut);
    } else {
      HolderExists(s);
      var id := Pick(CheckingIds(s.phases));
      step := ResumeChecking(id, Proceed);
    }
  }

  lemma HolderExists(s: Server)
    requires Inv(s) && Live(s.phases) != {} && s.worker.Idle? && (s.waiters == [] || s.locked)
    ensures CheckingIds(s.phases) != {}
  {
    assert Holders(s.phases) == CheckingIds(s.phases);
    assert Live(s.phases) == QueuedIds(s.phases) + Holders(s.phases);
  }

  function WorkerRank(w: Worker): nat {
    match w case Idle => 0 case Submitted(_) => 5 case Running(_) => 4 case Returned(_, _) => 3 case Resolved(_, _) => 2
  }

  function Rank(s: Server): nat {
    7 * |QueuedIds(s.phases)| + 6 * |CheckingIds(s.phases)| + WorkerRank(s.worker)
  }

  lemma RankAfter(ps: Phases, id: Id, p: Phase)
    requires id in ps
    ensures |QueuedIds(ps[id := p])| == |QueuedIds(ps)| + (if p.Queued? then 1 else 0) - (if ps[id].Queued? then 1 else 0)
    ensures |CheckingIds(ps[id := p])| == |CheckingIds(ps)| + (if p.Checking? then 1 else 0) - (if ps[id].Checking? then 1 else 0)
  {
    SetPhase(ps, id, p);
    WithSize(QueuedIds(ps), id, p.Queued?);
    WithSize(CheckingIds(ps), id, p.Checking?);
  }

  lemma CheckRankFalls(s: Server, id: Id, check: Check)
    requires Inv(s) && In(s, id, Checking)
    ensures Rank(CheckResumed(s, id, check)) < Rank(s)
  {
    assert id in Holders(s.phases);
    OnlyHolder(s, id);
    var p := CheckResumed(s, id, check).phases[id];
    assert CheckResumed(s, id, check).phases == s.phases[id := p];
    RankAfter(s.phases, id, p);
  }

  lemma AwaitRankFalls(s: Server, id: Id)
    requires Inv(s) && Enabled(s, ResumeAwait(id, false))
    ensures Rank(AwaitResumed(s, id, false)) < Rank(s)
  {
    var p := AwaitResumed(s, id, false).phases[id];
    assert AwaitResumed(s, id, false).phases == s.phases[id := p];
    RankAfter(s.phases, id, p);
  }

  lemma QueueRankFalls(s: Server, id: Id, wake: Wake)
    requires In(s, id, Queued)
    ensures Rank(QueueResumed(s, id, wake)) < Rank(s)
  {
    var p := QueueResumed(s, id, wake).phases[id];
    assert QueueResumed(s, id, wake).phases == s.phases[id := p];
    RankAfter(s.phases, id, p);
  }

  lemma RankFalls(s: Server, step: Step)
    requires Inv(s) && Enabled(s, step) && Internal(step)
    ensures Rank(Post(s, step)) < Rank(s)
  {
    match step
    case ResumeQueued(id, wake) => QueueRankFalls(s, id, wake);
    case ResumeChecking(id, check) => CheckRankFalls(s, id, check);
    case ResumeAwait(id, _) => AwaitRankFalls(s, id);
    case _ =>
  }

  /**
   Left to itself the service drains: a schedule of its own steps is no longer than the work in hand,
   and where no such step is left every request has been answered and the slot is free.
   */
  lemma {:induction false} Drains(s: Server, steps: seq<Step>, last: Server)
    requires Inv(s) && IsRun(s, steps, last) && forall i :: 0 <= i < |steps| ==> Internal(steps[i])
    ensures |steps| + Rank(last) <= Rank(s)
    ensures (forall step :: Internal(step) ==> !Enabled(last, step)) ==>
              Live(last.phases) == {} && !last.locked && last.waiters == [] && last.worker.Idle? && last.admitted == 0
    decreases |steps|
  {
    RunKeepsInv(s, steps, last);
    if steps != [] {
      RankFalls(s, steps[0]);
      KeepsInv(s, steps[0]);
      Drains(Post(s, steps[0]), steps[1..], last);
    } else if Live(last.phases) != {} {
      var next := NeverStuck(last);
    } else {
      NobodyLive(last);
    }
  }
}
