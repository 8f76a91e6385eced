/**
 The decide endpoint as it runs: the variables that create_app closes over, updated in place by the
 stretches of code between two awaits. Each of them is proved to be one step of InferenceQueue, and to keep
 what that module proves of every schedule: admission is counted and bounded, one request holds the lock,
 and the in-flight clock runs while its batch does.
 */
module InferenceServer {
  import opened Common
  import opened InferenceQueue

  class DecideServer {
    const capacity: nat
    var phases: map<Id, Phase>
    var admitted: int
    var locked: bool
    var waiters: seq<Waiter>
    var inflight: Option<Time>
    var worker: Worker
    var clock: Time
    var ready: bool
    var closing: bool
    var shut: bool
    var completed: nat
    var rejected: nat
    var failed: nat
    ghost var refused: bool

    ghost function View(): Server
      reads this
    {
      Server(capacity, phases, admitted, locked, waiters, inflight, worker, clock, ready, closing, shut,
             Metrics(completed, rejected, failed), refused)
    }

    ghost predicate Valid()
      reads this
    {
      Inv(View())
    }

    constructor (capacity: nat, clock: Time)
      ensures Valid() && View() == Start(capacity, clock)
    {
      StartOk(capacity, clock);
      this.capacity, this.clock := capacity, clock;
      phases, admitted, locked, waiters, inflight, worker := map[], 0, false, [], None, Idle;
      ready, closing, shut, completed, rejected, failed, refused := true, false, false, 0, 0, 0, false;
    }

    /** From the call to the first await. */
    method Enter(id: Id, valid: bool)
      requires id !in phases
      modifies this
      ensures View() == Post(old(View()), Step.Arrive(id, valid))
    {
      if !ready || closing {
        phases := phases[id := Finished(Unavailable)];
        return;
      }
      if !valid {
        phases := phases[id := Finished(Invalid)];
        return;
      }
      if admitted >= capacity + 1 {
        rejected := rejected + 1;
        phases := phases[id := Finished(QueueFull)];
        return;
      }
      admitted := admitted + 1;
      if !locked && AllCancelled(waiters) {
        locked := true;
        phases := phases[id := Checking];
      } else {
        waiters := waiters + [Waiter(id, Pending)];
        phases := phases[id := Queued];
      }
    }

    /** The wait for the lock ends: with the lock, with a timeout, or with a cancellation. */
    method EndWait(id: Id, wake: Wake)
      requires Enabled(View(), ResumeQueued(id, wake))
      modifies this
      ensures View() == Post(old(View()), ResumeQueued(id, wake))
    {
      if wake == Granted {
        waiters := Remove(waiters, id);
        locked := true;
        phases := phases[id := Checking];
      } else {
        AbandonWait(id, if wake == TimedOut then DeadlineExceeded else Aborted);
      }
    }

    /** Leaves the queue; on a free lock the next waiter is woken instead. */
    method AbandonWait(id: Id, reply: Reply)
      requires reply == DeadlineExceeded || reply == Aborted
      modifies this
      ensures View() == GiveUp(old(View()), id, reply)
    {
      waiters := Remove(waiters, id);
      if !locked { waiters := WakeFirst(waiters); }
      if reply == DeadlineExceeded { rejected := rejected + 1; }
      Return(id, false, reply);
    }

    /** The outer finally. */
    method Return(id: Id, acquired: bool, reply: Reply)
      modifies this
      ensures View() == if acquired then LeaveSlot(old(View()), id, reply) else LeaveQueue(old(View()), id, reply)
    {
      if acquired {
        locked := false;
        waiters := WakeFirst(waiters);
      }
      admitted := admitted - 1;
      phases := phases[id := Finished(reply)];
    }

    /** From the disconnect check to the await on the shielded future. */
    method EndCheck(id: Id, check: Check)
      requires Enabled(View(), ResumeChecking(id, check))
      modifies this
      ensures View() == Post(old(View()), ResumeChecking(id, check))
    {
      if check == Disconnected {
        Return(id, true, ClientGone);
      } else if check == CancelledInCheck {
        Return(id, true, Aborted);
      } else if check == InvalidItems {
        Return(id, true, Unprepared);
      } else if !ready {
        Return(id, true, Crashed);
      } else {
        inflight := Some(clock);
        if shut {
          refused := true;
          Return(id, true, Crashed);
        } else {
          worker := Submitted(id);
          phases := phases[id := Inferring];
        }
      }
    }

    /** An await on the shielded future ends: by a cancellation, or because the future is done. */
    method EndAwait(id: Id, cancelled: bool)
      requires Enabled(View(), ResumeAwait(id, cancelled))
      modifies this
      ensures View() == Post(old(View()), ResumeAwait(id, cancelled))
    {
      if !(worker.Resolved? && worker.id == id) {
        phases := phases[id := Draining];
        return;
      }
      var reply := if cancelled || phases[id].Draining? then Aborted else ReplyTo(worker.answer);
      Settle(id, reply);
    }

    /** The batch's future is done: stop the in-flight clock, count the way out, give the slot back. */
    method Settle(id: Id, reply: Reply)
      requires reply == Aborted || reply == InferenceFailed || reply == Answered
      modifies this
      ensures View() == LeaveInference(old(View()), id, reply)
    {
      worker := Idle;
      inflight := None;
      if reply == InferenceFailed { failed := failed + 1; }
      if reply == Answered { completed := completed + 1; }
      Return(id, true, reply);
    }

    // ---------- The endpoint's promises ----------

    /** A call arrives: admission equals the live requests, within the capacity; beyond it the call is turned away. */
    method Arrive(id: Id, valid: bool)
      requires Valid() && id !in phases
      modifies this
      ensures Valid() && View() == Post(old(View()), Step.Arrive(id, valid))
      ensures admitted == |Live(phases)| <= capacity + 1
      ensures old(admitted) > capacity ==> admitted == old(admitted) && phases[id].Finished?
      ensures phases[id] == Checking ==> !old(locked) && Holders(phases) == {id}
    {
      ArriveFacts(View(), id, valid);
      Enter(id, valid);
    }

    /** The lock wait ends: the lock goes to one request while free; giving up returns the admission. */
    method LeaveWait(id: Id, wake: Wake)
      requires Valid() && Enabled(View(), ResumeQueued(id, wake))
      modifies this
      ensures Valid() && View() == Post(old(View()), ResumeQueued(id, wake))
      ensures wake == Granted ==> !old(locked) && locked && Holders(phases) == {id}
      ensures wake != Granted ==> admitted == old(admitted) - 1 && locked == old(locked)
    {
      WaitFacts(View(), id, wake);
      EndWait(id, wake);
    }

    /** The lock holder submits: only it starts the in-flight clock, for its own batch or for a refused one. */
    method Submit(id: Id, check: Check)
      requires Valid() && Enabled(View(), ResumeChecking(id, check))
      modifies this
      ensures Valid() && View() == Post(old(View()), ResumeChecking(id, check))
      ensures old(Holders(phases)) == {id} && old(worker).Idle?
      ensures inflight != old(inflight) ==> inflight == Some(clock) && (worker == Submitted(id) || refused)
    {
      CheckFacts(View(), id, check);
      EndCheck(id, check);
    }

    /** An await on the batch ends: the slot, the clock and the admission are given back exactly when its future is done. */
    method LeaveAwait(id: Id, cancelled: bool)
      requires Valid() && Enabled(View(), ResumeAwait(id, cancelled))
      modifies this
      ensures Valid() && View() == Post(old(View()), ResumeAwait(id, cancelled))
      ensures old(Holders(phases)) == {id}
      ensures phases[id].Finished? <==> old(FutureDone(View(), id))
      ensures if phases[id].Finished? then !locked && inflight.None? && admitted == old(admitted) - 1
              else locked && inflight == old(inflight) && admitted == old(admitted)
      ensures !cancelled && old(phases[id]).Inferring? && old(worker) == Resolved(id, Success) ==>
                phases[id] == Finished(Answered) && completed == old(completed) + 1 && failed == old(failed)
      ensures !cancelled && old(phases[id]).Inferring? && old(worker) == Resolved(id, Failure) ==>
                phases[id] == Finished(InferenceFailed) && failed == old(failed) + 1 && completed == old(completed)
      ensures phases[id].Finished? && (cancelled || old(phases[id]).Draining? || old(worker) == Resolved(id, FutureCancelled)) ==>
                phases[id] == Finished(Aborted) && completed == old(completed) && failed == old(failed)
    {
      AwaitFacts(View(), id, cancelled);
      EndAwait(id, cancelled);
    }
  }

  lemma ArriveFacts(s: Server, id: Id, valid: bool)
    requires Inv(s) && id !in s.phases
    ensures var s' := Arrival(s, id, valid);
            && Inv(s') && s'.admitted == |Live(s'.phases)| <= s.capacity + 1
            && (s.admitted > s.capacity ==> s'.admitted == s.admitted && s'.phases[id].Finished?)
            && (s'.phases[id] == Checking ==> !s.locked && Holders(s'.phases) == {id})
  {
    ArriveKeeps(s, id, valid);
    var s' := Arrival(s, id, valid);
    if s'.phases[id] == Checking { HolderIs(s', id); }
  }

  lemma HolderIs(s: Server, id: Id)
    requires Inv(s) && id in s.phases && HoldsLock(s.phases[id])
    ensures s.locked && Holders(s.phases) == {id} && (s.phases[id].Checking? <==> s.worker.Idle?)
  {
    assert id in Holders(s.phases);
    OnlyHolder(s, id);
  }

  lemma WaitFacts(s: Server, id: Id, wake: Wake)
    requires Inv(s) && Enabled(s, ResumeQueued(id, wake))
    ensures var s' := QueueResumed(s, id, wake);
            && Inv(s')
            && (wake == Granted ==> !s.locked && s'.locked && Holders(s'.phases) == {id})
            && (wake != Granted ==> s'.admitted == s.admitted - 1 && s'.locked == s.locked)
  {
    QueueResumedKeeps(s, id, wake);
    if wake == Granted {
      GrantedIsHead(s.waiters, s.locked, id);
      HolderIs(QueueResumed(s, id, wake), id);
    }
  }

  lemma CheckFacts(s: Server, id: Id, check: Check)
    requires Inv(s) && In(s, id, Checking)
    ensures var s' := CheckResumed(s, id, check);
            && Inv(s') && Holders(s.phases) == {id} && s.worker.Idle?
            && (s'.inflight != s.inflight ==> s'.inflight == Some(s.clock) && (s'.worker == Submitted(id) || s'.refused))
  {
    CheckResumedKeeps(s, id, check);
    HolderIs(s, id);
  }

  lemma AwaitFacts(s: Server, id: Id, cancelled: bool)
    requires Inv(s) && Enabled(s, ResumeAwait(id, cancelled))
    ensures var s' := AwaitResumed(s, id, cancelled);
            && Inv(s') && Holders(s.phases) == {id} && (s'.phases[id].Finished? <==> FutureDone(s, id))
            && (if s'.phases[id].Finished? then !s'.locked && s'.inflight.None? && s'.admitted == s.admitted - 1
                else s'.locked && s'.inflight == s.inflight && s'.admitted == s.admitted)
            && (!cancelled && s.phases[id].Inferring? && s.worker == Resolved(id, Success) ==>
                  s'.phases[id] == Finished(Answered) && s'.metrics == s.metrics.(completed := s.metrics.completed + 1))
            && (!cancelled && s.phases[id].Inferring? && s.worker == Resolved(id, Failure) ==>
                  s'.phases[id] == Finished(InferenceFailed) && s'.metrics == s.metrics.(failed := s.metrics.failed + 1))
            && (s'.phases[id].Finished? && (cancelled || s.phases[id].Draining? || s.worker == Resolved(id, FutureCancelled)) ==>
                  s'.phases[id] == Finished(Aborted) && s'.metrics == s.metrics)
  {
    AwaitResumedKeeps(s, id, cancelled);
    HolderIs(s, id);
  }
}
