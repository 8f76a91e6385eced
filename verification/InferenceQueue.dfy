/**
 The bounded single-slot inference queue of ai-service/probara_ai/server.py.

 Every step is what one task does between two awaits, so any schedule of arrivals, queue timeouts,
 cancellations, worker-thread progress and shutdown is a sequence of these steps. The lock follows
 asyncio.Lock: a released lock wakes the first waiter, which takes it when its task next runs.
 */
module InferenceQueue {
  import opened Common

  type Id = int
  type Time = int

  datatype Future = Pending | Woken | Cancelled

  datatype Waiter = Waiter(id: Id, future: Future)

  /** How a request ended. */
  datatype Reply =
    | Unavailable | Invalid | QueueFull | DeadlineExceeded | ClientGone | Unprepared
    | Answered | InferenceFailed | Aborted | Crashed

  datatype Phase =
    | Queued                 // awaiting lock.acquire()
    | Checking               // holds the lock, awaiting request.is_disconnected()
    | Inferring              // holds the lock, awaiting shield(future) for the first time
    | Draining               // holds the lock, was cancelled, waits for the future to be done
    | Finished(reply: Reply)

  datatype Answer = Success | Failure | FutureCancelled

  /** The executor slot: the thread running predict and the asyncio future it resolves. */
  datatype Worker =
    | Idle
    | Submitted(id: Id)
    | Running(id: Id)
    | Returned(id: Id, answer: Answer)  // the thread is done, the loop has not been told yet
    | Resolved(id: Id, answer: Answer)  // future.done()

  datatype Metrics = Metrics(completed: nat, rejected: nat, failed: nat)

  datatype Server = Server(
    capacity: nat, phases: map<Id, Phase>, admitted: int,
    locked: bool, waiters: seq<Waiter>,
    inflight: Option<Time>, worker: Worker, clock: Time,
    ready: bool, closing: bool, shut: bool, metrics: Metrics,
    refused: bool)           // history: the executor has refused a submission

  function Start(capacity: nat, clock: Time): Server {
    Server(capacity, map[], 0, false, [], None, Idle, clock, true, false, false, Metrics(0, 0, 0), false)
  }

  // ---------- asyncio.Lock ----------

  /** _wake_up_first: only the head, and only if its future is still pending. */
  function WakeFirst(ws: seq<Waiter>): seq<Waiter> {
    if ws != [] && ws[0].future == Pending then ws[0 := ws[0].(future := Woken)] else ws
  }

  predicate AllCancelled(ws: seq<Waiter>) { forall i :: 0 <= i < |ws| ==> ws[i].future == Cancelled }

  function Remove(ws: seq<Waiter>, id: Id): seq<Waiter> {
    if ws == [] then [] else if ws[0].id == id then ws[1..] else [ws[0]] + Remove(ws[1..], id)
  }

  function FutureOf(ws: seq<Waiter>, id: Id): Future {
    if ws == [] then Cancelled else if ws[0].id == id then ws[0].future else FutureOf(ws[1..], id)
  }

  function SetCancelled(ws: seq<Waiter>, id: Id): seq<Waiter> {
    if ws == [] then []
    else [if ws[0].id == id && ws[0].future == Pending then ws[0].(future := Cancelled) else ws[0]] + SetCancelled(ws[1..], id)
  }

  /** A cancellation reaches the one waiter that is still waiting under the id, and nobody else. */
  lemma {:induction false} SetCancelledMeans(ws: seq<Waiter>, id: Id)
    ensures |SetCancelled(ws, id)| == |ws|
    ensures forall i :: 0 <= i < |ws| ==>
              SetCancelled(ws, id)[i] == if ws[i].id != id || ws[i].future != Pending then ws[i] else Waiter(id, Cancelled)
  {
    if ws != [] { SetCancelledMeans(ws[1..], id); }
  }

  /** A waiter that leaves takes its first entry along and keeps the order of the rest. */
  lemma {:induction false} RemoveMeans(ws: seq<Waiter>, id: Id) returns (i: nat)
    ensures if forall k :: 0 <= k < |ws| ==> ws[k].id != id then Remove(ws, id) == ws
            else i < |ws| && ws[i].id == id && (forall k :: 0 <= k < i ==> ws[k].id != id) && Remove(ws, id) == ws[..i] + ws[i + 1..]
  {
    i := 0;
    if ws != [] && ws[0].id != id {
      var j := RemoveMeans(ws[1..], id);
      i := j + 1;
    }
  }

  /** A wake-up resolves the first waiter's pending future and touches nothing else. */
  lemma WakeMeans(ws: seq<Waiter>)
    ensures |WakeFirst(ws)| == |ws| && forall i :: 0 < i < |ws| ==> WakeFirst(ws)[i] == ws[i]
    ensures ws != [] ==> WakeFirst(ws)[0] == if ws[0].future == Pending then Waiter(ws[0].id, Woken) else ws[0]
  {
  }

  // ---------- Steps ----------

  datatype Wake = Granted | TimedOut | CancelledInQueue
  datatype Check = Proceed | Disconnected | InvalidItems | CancelledInCheck

  datatype Step =
    | Arrive(id: Id, valid: bool)
    | Cancel(id: Id)                       // task.cancel(), or the queue timer, while queued
    | ResumeQueued(id: Id, wake: Wake)
    | ResumeChecking(id: Id, check: Check)
    | ResumeAwait(id: Id, cancelled: bool) // from either await on the shielded future
    | StartThread
    | EndThread(ok: bool)
    | Notify
    | Close
    | ShutdownExecutor
    | Unload
    | Tick(to: Time)

  predicate HoldsLock(p: Phase) { p.Checking? || p.Inferring? || p.Draining? }

  predicate In(s: Server, id: Id, p: Phase) { id in s.phases && s.phases[id] == p }

  predicate Enabled(s: Server, step: Step) {
    match step
    case Arrive(id, _) => id !in s.phases
    case Cancel(id) => In(s, id, Queued)
    case ResumeQueued(id, wake) =>
      In(s, id, Queued) && (if wake == Granted then FutureOf(s.waiters, id) == Woken else FutureOf(s.waiters, id) != Pending)
    case ResumeChecking(id, _) => In(s, id, Checking)
    case ResumeAwait(id, cancelled) =>
      && (In(s, id, Inferring) || In(s, id, Draining))
      && (cancelled || (s.worker.Resolved? && s.worker.id == id))
    case StartThread => s.worker.Submitted?
    case EndThread(_) => s.worker.Running?
    case Notify => s.worker.Returned?
    case Close => true
    case ShutdownExecutor => s.closing
    case Unload => s.shut && (s.worker.Idle? || s.worker.Returned? || s.worker.Resolved?)
    case Tick(to) => s.clock <= to
  }

  /** The counter each way out increments. */
  function Counted(m: Metrics, r: Reply): Metrics {
    match r
    case Answered => m.(completed := m.completed + 1)
    case QueueFull => m.(rejected := m.rejected + 1)
    case DeadlineExceeded => m.(rejected := m.rejected + 1)
    case InferenceFailed => m.(failed := m.failed + 1)
    case _ => m
  }

  /** The outer finally of a request that never took the lock. */
  function LeaveQueue(s: Server, id: Id, reply: Reply): Server {
    s.(admitted := s.admitted - 1, phases := s.phases[id := Finished(reply)])
  }

  /** The outer finally of the lock holder: release, wake the next waiter, give admission back. */
  function LeaveSlot(s: Server, id: Id, reply: Reply): Server {
    s.(locked := false, waiters := WakeFirst(s.waiters), admitted := s.admitted - 1, phases := s.phases[id := Finished(reply)])
  }

  /** The inner finally: the executor future is done, so the in-flight clock stops. */
  function LeaveInference(s: Server, id: Id, reply: Reply): Server {
    LeaveSlot(s.(inflight := None, worker := Idle, metrics := Counted(s.metrics, reply)), id, reply)
  }

  function Admit(s: Server, id: Id): Server {
    if !s.locked && AllCancelled(s.waiters)
    then s.(admitted := s.admitted + 1, locked := true, phases := s.phases[id := Checking])
    else s.(admitted := s.admitted + 1, waiters := s.waiters + [Waiter(id, Pending)], phases := s.phases[id := Queued])
  }

  function Arrival(s: Server, id: Id, valid: bool): Server {
    if !s.ready || s.closing then s.(phases := s.phases[id := Finished(Unavailable)])
    else if !valid then s.(phases := s.phases[id := Finished(Invalid)])
    else if s.admitted >= s.capacity + 1 then
      s.(metrics := s.metrics.(rejected := s.metrics.rejected + 1), phases := s.phases[id := Finished(QueueFull)])
    else Admit(s, id)
  }

  /** A waiter that gives up leaves the queue and, on a free lock, passes the wake-up on. */
  function GiveUp(s: Server, id: Id, reply: Reply): Server {
    var ws := Remove(s.waiters, id);
    LeaveQueue(s.(waiters := if s.locked then ws else WakeFirst(ws), metrics := Counted(s.metrics, reply)), id, reply)
  }

  function QueueResumed(s: Server, id: Id, wake: Wake): Server {
    match wake
    case Granted => s.(waiters := Remove(s.waiters, id), locked := true, phases := s.phases[id := Checking])
    case TimedOut => GiveUp(s, id, DeadlineExceeded)
    case CancelledInQueue => GiveUp(s, id, Aborted)
  }

  function CheckResumed(s: Server, id: Id, check: Check): Server {
    match check
    case Disconnected => LeaveSlot(s, id, ClientGone)
    case CancelledInCheck => LeaveSlot(s, id, Aborted)
    case InvalidItems => LeaveSlot(s, id, Unprepared)
    case Proceed =>
      if !s.ready then LeaveSlot(s, id, Crashed)
      // The in-flight clock starts before the submission, outside the try that clears it.
      else if s.shut then LeaveSlot(s.(inflight := Some(s.clock), refused := true), id, Crashed)
      else s.(inflight := Some(s.clock), worker := Submitted(id), phases := s.phases[id := Inferring])
  }

  predicate FutureDone(s: Server, id: Id) { s.worker.Resolved? && s.worker.id == id }

  function ReplyTo(answer: Answer): Reply {
    match answer case Success => Answered case Failure => InferenceFailed case FutureCancelled => Aborted
  }

  /** A cancelled caller keeps the slot until its future is done; its reply is then the cancellation. */
  function AwaitResumed(s: Server, id: Id, cancelled: bool): Server
    requires id in s.phases && (cancelled || FutureDone(s, id))
  {
    if !FutureDone(s, id) then s.(phases := s.phases[id := Draining])
    else LeaveInference(s, id, if cancelled || s.phases[id].Draining? then Aborted else ReplyTo(s.worker.answer))
  }

  function Post(s: Server, step: Step): Server
    requires Enabled(s, step)
  {
    match step
    case Arrive(id, valid) => Arrival(s, id, valid)
    case Cancel(id) => s.(waiters := SetCancelled(s.waiters, id))
    case ResumeQueued(id, wake) => QueueResumed(s, id, wake)
    case ResumeChecking(id, check) => CheckResumed(s, id, check)
    case ResumeAwait(id, cancelled) => AwaitResumed(s, id, cancelled)
    case StartThread => s.(worker := Running(s.worker.id))
    case EndThread(ok) => s.(worker := Returned(s.worker.id, if ok then Success else Failure))
    case Notify => s.(worker := Resolved(s.worker.id, s.worker.answer))
    case Close => s.(closing := true)
    case ShutdownExecutor =>
      s.(shut := true, worker := if s.worker.Submitted? then Returned(s.worker.id, FutureCancelled) else s.worker)
    case Unload => s.(ready := false)
    case Tick(to) => s.(clock := to)
  }

  // ---------- The invariant ----------

  type Phases = map<Id, Phase>

  function Live(ps: Phases): set<Id> { set id | id in ps && !ps[id].Finished? }
  function QueuedIds(ps: Phases): set<Id> { set id | id in ps && ps[id].Queued? }
  function CheckingIds(ps: Phases): set<Id> { set id | id in ps && ps[id].Checking? }
  function BatchIds(ps: Phases): set<Id> { set id | id in ps && (ps[id].Inferring? || ps[id].Draining?) }
  function Ended(ps: Phases, r: Reply): set<Id> { set id | id in ps && ps[id] == Finished(r) }

  /** The requests that hold the lock. */
  function Holders(ps: Phases): set<Id> { CheckingIds(ps) + BatchIds(ps) }

  function Waiting(ws: seq<Waiter>): set<Id> {
    if ws == [] then {} else {ws[0].id} + Waiting(ws[1..])
  }

  predicate DistinctWaiters(ws: seq<Waiter>) {
    ws == [] || (ws[0].id !in Waiting(ws[1..]) && DistinctWaiters(ws[1..]))
  }

  predicate NoneWoken(ws: seq<Waiter>) { forall i :: 0 <= i < |ws| ==> ws[i].future != Woken }

  /** Only the head is ever woken, and a free lock with waiters has a head that will run. */
  predicate QueueOk(ws: seq<Waiter>, locked: bool) {
    && DistinctWaiters(ws)
    && (if locked then NoneWoken(ws) else ws != [] ==> ws[0].future != Pending && NoneWoken(ws[1..]))
  }

  function WorkerIds(w: Worker): set<Id> { if w.Idle? then {} else {w.id} }

  predicate SlotOk(ps: Phases, locked: bool, w: Worker) {
    && BatchIds(ps) == WorkerIds(w)
    && |Holders(ps)| == (if locked then 1 else 0)
  }

  /** The in-flight clock runs exactly while a batch occupies the slot, or since a refused submission. */
  predicate ClockOk(s: Server) {
    && (s.inflight.Some? <==> !s.worker.Idle? || s.refused)
    && (s.refused ==> s.shut && s.worker.Idle?)
    && (s.shut ==> s.closing && !s.worker.Submitted?)
  }

  predicate MetricsOk(ps: Phases, m: Metrics) {
    && m.completed == |Ended(ps, Answered)|
    && m.rejected == |Ended(ps, QueueFull)| + |Ended(ps, DeadlineExceeded)|
    && m.failed == |Ended(ps, InferenceFailed)|
  }

  predicate QueuePart(s: Server) {
    Waiting(s.waiters) == QueuedIds(s.phases) && QueueOk(s.waiters, s.locked)
  }

  predicate CountPart(s: Server) {
    && s.admitted == |Live(s.phases)| <= s.capacity + 1
    && SlotOk(s.phases, s.locked, s.worker)
    && ClockOk(s)
    && MetricsOk(s.phases, s.metrics)
  }

  predicate Inv(s: Server) { QueuePart(s) && CountPart(s) }

  // ---------- Waiter lists ----------

  lemma {:induction false} AppendOk(ws: seq<Waiter>, w: Waiter)
    requires DistinctWaiters(ws) && w.id !in Waiting(ws)
    ensures DistinctWaiters(ws + [w]) && Waiting(ws + [w]) == Waiting(ws) + {w.id}
  {
    if ws == [] {
      assert ws + [w] == [w] && [w][1..] == [];
    } else {
      assert (ws + [w])[1..] == ws[1..] + [w];
      AppendOk(ws[1..], w);
    }
  }

  /** Waking the head of a queue with nobody woken keeps the queue well formed for a free lock. */
  lemma WakeFirstOk(ws: seq<Waiter>)
    requires DistinctWaiters(ws) && (ws != [] ==> NoneWoken(ws[1..]))
    ensures QueueOk(WakeFirst(ws), false) && Waiting(WakeFirst(ws)) == Waiting(ws)
  {
    if ws != [] { assert WakeFirst(ws)[1..] == ws[1..]; }
  }

  lemma {:induction false} RemoveOk(ws: seq<Waiter>, id: Id)
    requires DistinctWaiters(ws)
    ensures DistinctWaiters(Remove(ws, id)) && Waiting(Remove(ws, id)) == Waiting(ws) - {id}
    ensures NoneWoken(ws) ==> NoneWoken(Remove(ws, id))
  {
    if ws != [] {
      if ws[0].id == id {
        assert forall i :: 0 <= i < |ws[1..]| ==> ws[1..][i] == ws[i + 1];
      } else {
        RemoveOk(ws[1..], id);
        assert ([ws[0]] + Remove(ws[1..], id))[1..] == Remove(ws[1..], id);
      }
    }
  }

  lemma NoneWokenTail(ws: seq<Waiter>)
    requires ws != [] && NoneWoken(ws)
    ensures NoneWoken(ws[1..])
  {
    assert forall i :: 0 <= i < |ws[1..]| ==> ws[1..][i] == ws[i + 1];
  }

  /** Removing a waiter keeps the queue well formed; a free lock wakes the new head. */
  lemma RemoveKeepsQueue(ws: seq<Waiter>, locked: bool, id: Id)
    requires QueueOk(ws, locked)
    ensures QueueOk(if locked then Remove(ws, id) else WakeFirst(Remove(ws, id)), locked)
    ensures Waiting(WakeFirst(Remove(ws, id))) == Waiting(Remove(ws, id)) == Waiting(ws) - {id}
  {
    RemoveOk(ws, id);
    var rest := Remove(ws, id);
    if ws != [] {
      if ws[0].id == id {
        if locked { NoneWokenTail(ws); }
        if rest != [] { NoneWokenTail(rest); }
      } else {
        if locked { NoneWokenTail(ws); }
        RemoveOk(ws[1..], id);
        assert rest[1..] == Remove(ws[1..], id);
      }
    }
    WakeFirstOk(rest);
  }

  lemma {:induction false} NotWoken(ws: seq<Waiter>, id: Id)
    requires NoneWoken(ws)
    ensures FutureOf(ws, id) != Woken
  {
    if ws != [] {
      NoneWokenTail(ws);
      NotWoken(ws[1..], id);
    }
  }

  /** Only the head can be granted the lock, and only while it is free. */
  lemma GrantedIsHead(ws: seq<Waiter>, locked: bool, id: Id)
    requires QueueOk(ws, locked) && FutureOf(ws, id) == Woken
    ensures !locked && ws != [] && ws[0].id == id && Remove(ws, id) == ws[1..]
  {
    if locked { NotWoken(ws, id); }
    if ws != [] && ws[0].id != id { NotWoken(ws[1..], id); }
  }

  lemma {:induction false} SetCancelledOk(ws: seq<Waiter>, id: Id)
    ensures Waiting(SetCancelled(ws, id)) == Waiting(ws)
    ensures DistinctWaiters(ws) ==> DistinctWaiters(SetCancelled(ws, id))
    ensures NoneWoken(ws) ==> NoneWoken(SetCancelled(ws, id))
  {
    if ws != [] {
      if NoneWoken(ws) { NoneWokenTail(ws); }
      SetCancelledOk(ws[1..], id);
      assert SetCancelled(ws, id)[1..] == SetCancelled(ws[1..], id);
    }
  }

  // ---------- One request changes phase ----------

  function With(a: set<Id>, id: Id, yes: bool): set<Id> { if yes then a + {id} else a - {id} }

  lemma SetPhase(ps: Phases, id: Id, p: Phase)
    ensures Live(ps[id := p]) == With(Live(ps), id, !p.Finished?)
    ensures QueuedIds(ps[id := p]) == With(QueuedIds(ps), id, p.Queued?)
    ensures CheckingIds(ps[id := p]) == With(CheckingIds(ps), id, p.Checking?)
    ensures BatchIds(ps[id := p]) == With(BatchIds(ps), id, p.Inferring? || p.Draining?)
    ensures forall r :: Ended(ps[id := p], r) == With(Ended(ps, r), id, p == Finished(r))
  {
  }

  lemma WithSize(a: set<Id>, id: Id, yes: bool)
    ensures |With(a, id, yes)| == |a| + (if yes then (if id in a then 0 else 1) else (if id in a then -1 else 0))
  {
    if id in a {
      assert a + {id} == a;
      assert a == (a - {id}) + {id};
    } else {
      assert a - {id} == a;
    }
  }

  predicate IsLive(ps: Phases, id: Id) { id in ps && !ps[id].Finished? }

  lemma EndedSize(ps: Phases, id: Id, p: Phase, r: Reply)
    requires id !in ps || IsLive(ps, id)
    ensures |Ended(ps[id := p], r)| == |Ended(ps, r)| + (if p == Finished(r) then 1 else 0)
  {
    SetPhase(ps, id, p);
    WithSize(Ended(ps, r), id, p == Finished(r));
  }

  lemma MetricsKept(ps: Phases, m: Metrics, id: Id, p: Phase)
    requires MetricsOk(ps, m) && (id !in ps || IsLive(ps, id))
    ensures MetricsOk(ps[id := p], if p.Finished? then Counted(m, p.reply) else m)
  {
    EndedSize(ps, id, p, Answered);
    EndedSize(ps, id, p, QueueFull);
    EndedSize(ps, id, p, DeadlineExceeded);
    EndedSize(ps, id, p, InferenceFailed);
  }

  lemma LiveSize(ps: Phases, id: Id, p: Phase)
    ensures |Live(ps[id := p])| ==
            |Live(ps)| + (if p.Finished? then (if IsLive(ps, id) then -1 else 0) else (if IsLive(ps, id) then 0 else 1))
  {
    SetPhase(ps, id, p);
    WithSize(Live(ps), id, !p.Finished?);
  }

  lemma HoldersKept(ps: Phases, id: Id, p: Phase)
    ensures Holders(ps[id := p]) == With(Holders(ps), id, HoldsLock(p))
    ensures |Holders(ps[id := p])| == |Holders(ps)|
              + (if HoldsLock(p) then (if id in Holders(ps) then 0 else 1) else (if id in Holders(ps) then -1 else 0))
  {
    SetPhase(ps, id, p);
    assert Holders(ps[id := p]) == With(Holders(ps), id, HoldsLock(p));
    WithSize(Holders(ps), id, HoldsLock(p));
  }

  lemma OnlyHolder(s: Server, id: Id)
    requires SlotOk(s.phases, s.locked, s.worker) && id in Holders(s.phases)
    ensures s.locked && Holders(s.phases) == {id}
    ensures s.phases[id].Checking? <==> s.worker.Idle?
  {
    SubsetSize({id}, Holders(s.phases));
    assert BatchIds(s.phases) <= Holders(s.phases);
  }

  // ---------- Every step keeps the invariant ----------

  lemma PhaseFacts(ps: Phases, m: Metrics, id: Id, p: Phase)
    requires MetricsOk(ps, m) && (id !in ps || IsLive(ps, id))
    ensures MetricsOk(ps[id := p], if p.Finished? then Counted(m, p.reply) else m)
    ensures |Live(ps[id := p])| ==
            |Live(ps)| + (if p.Finished? then (if IsLive(ps, id) then -1 else 0) else (if IsLive(ps, id) then 0 else 1))
    ensures |Holders(ps[id := p])| == |Holders(ps)|
              + (if HoldsLock(p) then (if id in Holders(ps) then 0 else 1) else (if id in Holders(ps) then -1 else 0))
    ensures QueuedIds(ps[id := p]) == With(QueuedIds(ps), id, p.Queued?)
    ensures BatchIds(ps[id := p]) == With(BatchIds(ps), id, p.Inferring? || p.Draining?)
  {
    MetricsKept(ps, m, id, p);
    LiveSize(ps, id, p);
    HoldersKept(ps, id, p);
    SetPhase(ps, id, p);
  }

  lemma RejectKeepsSets(ps: Phases, id: Id, r: Reply)
    requires id !in ps
    ensures QueuedIds(ps[id := Finished(r)]) == QueuedIds(ps) && BatchIds(ps[id := Finished(r)]) == BatchIds(ps)
  {
    SetPhase(ps, id, Finished(r));
  }

  lemma RejectKeeps(s: Server, id: Id, r: Reply)
    requires Inv(s) && id !in s.phases
    ensures Inv(s.(metrics := Counted(s.metrics, r), phases := s.phases[id := Finished(r)]))
  {
    RejectKeepsSets(s.phases, id, r);
    MetricsKept(s.phases, s.metrics, id, Finished(r));
    LiveSize(s.phases, id, Finished(r));
    HoldersKept(s.phases, id, Finished(r));
  }

  lemma JumpKeeps(s: Server, id: Id)
    requires Inv(s) && id !in s.phases && s.admitted <= s.capacity && !s.locked && AllCancelled(s.waiters)
    ensures Inv(Admit(s, id))
  {
    PhaseFacts(s.phases, s.metrics, id, Checking);
  }

  lemma EnqueueKeeps(s: Server, id: Id)
    requires Inv(s) && id !in s.phases && s.admitted <= s.capacity && !(!s.locked && AllCancelled(s.waiters))
    ensures Inv(Admit(s, id))
  {
    PhaseFacts(s.phases, s.metrics, id, Queued);
    AppendKeepsQueue(s.waiters, s.locked, Waiter(id, Pending));
  }

  lemma AppendKeepsQueue(ws: seq<Waiter>, locked: bool, w: Waiter)
    requires QueueOk(ws, locked) && w.id !in Waiting(ws) && w.future == Pending && (locked || ws != [])
    ensures QueueOk(ws + [w], locked) && Waiting(ws + [w]) == Waiting(ws) + {w.id}
  {
    AppendOk(ws, w);
    if ws != [] { assert (ws + [w])[1..] == ws[1..] + [w]; }
  }

  lemma ArriveKeeps(s: Server, id: Id, valid: bool)
    requires Inv(s) && id !in s.phases
    ensures Inv(Arrival(s, id, valid))
  {
    if !s.ready || s.closing { RejectKeeps(s, id, Unavailable); }
    else if !valid { RejectKeeps(s, id, Invalid); }
    else if s.admitted >= s.capacity + 1 { RejectKeeps(s, id, QueueFull); }
    else if !s.locked && AllCancelled(s.waiters) { JumpKeeps(s, id); }
    else { EnqueueKeeps(s, id); }
  }

  lemma GrantKeeps(s: Server, id: Id)
    requires Inv(s) && Enabled(s, ResumeQueued(id, Granted))
    ensures Inv(QueueResumed(s, id, Granted))
  {
    PhaseFacts(s.phases, s.metrics, id, Checking);
    RemoveOk(s.waiters, id);
    GrantedIsHead(s.waiters, s.locked, id);
  }

  lemma GiveUpKeepsQueue(s: Server, id: Id, r: Reply)
    requires QueuePart(s) && In(s, id, Queued)
    ensures QueuePart(GiveUp(s, id, r))
  {
    SetPhase(s.phases, id, Finished(r));
    RemoveKeepsQueue(s.waiters, s.locked, id);
  }

  lemma GiveUpKeeps(s: Server, id: Id, r: Reply)
    requires Inv(s) && In(s, id, Queued)
    ensures Inv(GiveUp(s, id, r))
  {
    GiveUpKeepsQueue(s, id, r);
    GiveUpKeepsCounts(s, id, r);
  }

  lemma GiveUpKeepsCounts(s: Server, id: Id, r: Reply)
    requires CountPart(s) && In(s, id, Queued)
    ensures CountPart(GiveUp(s, id, r))
  {
    PhaseFacts(s.phases, s.metrics, id, Finished(r));
  }

  lemma QueueResumedKeeps(s: Server, id: Id, wake: Wake)
    requires Inv(s) && Enabled(s, ResumeQueued(id, wake))
    ensures Inv(QueueResumed(s, id, wake))
  {
    match wake
    case Granted => GrantKeeps(s, id);
    case TimedOut => GiveUpKeeps(s, id, DeadlineExceeded);
    case CancelledInQueue => GiveUpKeeps(s, id, Aborted);
  }

  /** Releasing the lock wakes the next waiter. */
  lemma ReleaseKeepsQueue(s: Server, id: Id, p: Phase)
    requires QueuePart(s) && id in Holders(s.phases) && s.locked && !p.Queued?
    ensures Waiting(WakeFirst(s.waiters)) == QueuedIds(s.phases[id := p]) && QueueOk(WakeFirst(s.waiters), false)
  {
    SetPhase(s.phases, id, p);
    if s.waiters != [] { NoneWokenTail(s.waiters); }
    WakeFirstOk(s.waiters);
  }

  lemma LeaveSlotKeeps(s: Server, id: Id, reply: Reply, refuse: bool)
    requires Inv(s) && In(s, id, Checking) && (refuse ==> s.shut)
    requires Counted(s.metrics, reply) == s.metrics
    ensures Inv(LeaveSlot(if refuse then s.(inflight := Some(s.clock), refused := true) else s, id, reply))
  {
    assert id in Holders(s.phases);
    OnlyHolder(s, id);
    PhaseFacts(s.phases, s.metrics, id, Finished(reply));
    ReleaseKeepsQueue(s, id, Finished(reply));
  }

  lemma ProceedKeeps(s: Server, id: Id)
    requires Inv(s) && In(s, id, Checking) && s.ready && !s.shut
    ensures Inv(CheckResumed(s, id, Proceed))
  {
    assert id in Holders(s.phases);
    OnlyHolder(s, id);
    PhaseFacts(s.phases, s.metrics, id, Inferring);
  }

  lemma CheckResumedKeeps(s: Server, id: Id, check: Check)
    requires Inv(s) && In(s, id, Checking)
    ensures Inv(CheckResumed(s, id, check))
  {
    match check
    case Disconnected => LeaveSlotKeeps(s, id, ClientGone, false);
    case CancelledInCheck => LeaveSlotKeeps(s, id, Aborted, false);
    case InvalidItems => LeaveSlotKeeps(s, id, Unprepared, false);
    case Proceed =>
      if s.ready && !s.shut { ProceedKeeps(s, id); } else { LeaveSlotKeeps(s, id, Crashed, s.ready); }
  }

  lemma LeaveInferenceKeeps(s: Server, id: Id, reply: Reply)
    requires Inv(s) && id in BatchIds(s.phases) && FutureDone(s, id)
    ensures Inv(LeaveInference(s, id, reply))
  {
    assert id in Holders(s.phases);
    OnlyHolder(s, id);
    PhaseFacts(s.phases, s.metrics, id, Finished(reply));
    ReleaseKeepsQueue(s, id, Finished(reply));
  }

  lemma DrainKeeps(s: Server, id: Id)
    requires Inv(s) && id in BatchIds(s.phases)
    ensures Inv(s.(phases := s.phases[id := Draining]))
  {
    PhaseFacts(s.phases, s.metrics, id, Draining);
  }

  lemma AwaitResumedKeeps(s: Server, id: Id, cancelled: bool)
    requires Inv(s) && Enabled(s, ResumeAwait(id, cancelled))
    ensures Inv(AwaitResumed(s, id, cancelled))
  {
    assert id in BatchIds(s.phases);
    if FutureDone(s, id) {
      LeaveInferenceKeeps(s, id, if cancelled || s.phases[id].Draining? then Aborted else ReplyTo(s.worker.answer));
    } else {
      DrainKeeps(s, id);
    }
  }

  lemma CancelKeeps(s: Server, id: Id)
    requires Inv(s)
    ensures Inv(s.(waiters := SetCancelled(s.waiters, id)))
  {
    SetCancelledOk(s.waiters, id);
    if s.waiters != [] {
      SetCancelledOk(s.waiters[1..], id);
      assert SetCancelled(s.waiters, id)[1..] == SetCancelled(s.waiters[1..], id);
    }
  }

  lemma KeepsInv(s: Server, step: Step)
    requires Inv(s) && Enabled(s, step)
    ensures Inv(Post(s, step))
  {
    match step
    case Arrive(id, valid) => ArriveKeeps(s, id, valid);
    case Cancel(id) => CancelKeeps(s, id);
    case ResumeQueued(id, wake) => QueueResumedKeeps(s, id, wake);
    case ResumeChecking(id, check) => CheckResumedKeeps(s, id, check);
    case ResumeAwait(id, cancelled) => AwaitResumedKeeps(s, id, cancelled);
    case _ =>
  }

  lemma StartOk(capacity: nat, clock: Time)
    ensures Inv(Start(capacity, clock))
  {
    var s := Start(capacity, clock);
    assert Holders(s.phases) == {} && Live(s.phases) == {};
  }
}
