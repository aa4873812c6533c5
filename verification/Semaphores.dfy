/** crt_sem_t: counting, no lost wake-up, and exactly what its callers must not do. */
module Semaphores {
  import opened Actions
  import opened Scheduler
  import opened Seqs
  import opened Invariant
  import opened Ownership
  import opened Runs

  /** The value, and the whereabouts of the waiter. */
  predicate SoundAt(s: State, k: SemId)
    requires k in s.sems
  {
    var m := s.sems[k];
    && m.value == m.init + m.posts - m.waits >= 0
    && (m.waiter.Some? ==>
          var t := m.waiter.value;
          || (m.value == 0 && Holds(s, Semaphore(k), t))
          || (m.value == 1 && IsWaking(s.manager, k) && Holds(s, Semaphore(k), t))
          || (m.value == 1 && (Holds(s, TodoQueue, t) || Holds(s, ManagerThread, t))
              && t in s.tasks && Cont(s.tasks[t], RunPoint(s.manager, t)) == Some(SemTest(k))))
  }

  /** For any state of the invariant. */
  lemma SemSound(s: State, k: SemId)
    requires Inv(s) && k in s.sems
    ensures SoundAt(s, k)
  {
    Open(s);
    assert SemOk(s, k);
    if s.sems[k].waiter.Some? {
      var t := s.sems[k].waiter.value;
      assert RecordOk(s, t) && PlaceHolds(s, t);
      WaiterHeld(s, k, t);
    }
  }

  /**
   The value counts posts and completed waits and never goes below zero. While a waiter is
   recorded, either it is parked in the semaphore and the value is 0, or the value is 1 and its
   activation is under way: about to be pushed, in todo_queue, or taken by the manager.
   */
  lemma SemSafety(workers: nat, es: seq<Event>, k: SemId)
    requires workers >= 1 && Possible(Init(workers), es) && k in After(Init(workers), es).sems
    ensures SoundAt(After(Init(workers), es), k)
  {
    RunInv(workers, es);
    SemSound(After(Init(workers), es), k);
  }

  lemma WaiterHeld(s: State, k: SemId, t: Id)
    requires ManagerOk(s) && QueuesOk(s) && k in s.sems && SemOk(s, k) && s.sems[k].waiter == Some(t)
    requires RecordOk(s, t) && PlaceHolds(s, t)
    ensures s.tasks[t].place == AtSem(k) || Holds(s, TodoQueue, t) || Holds(s, ManagerThread, t)
  {
  }

  // ----- the discipline is exactly what is needed -----

  /** The state once the post has queued the waiter it found, if it found one. */
  function Posted(s: State, n: SemId, front: bool): State
    requires ChooseEnabled(s, SemPost(n, front))
  {
    var p := ChooseStep(s, SemPost(n, front));
    if p.manager.Running? && p.manager.at.WakePush? then MainStep(p) else p
  }

  /** For any state of the invariant. */
  lemma PostSafe(s: State, n: SemId, front: bool)
    requires Inv(s)
    requires ChooseEnabled(s, SemPost(n, front)) && n in s.sems
    ensures NoDup(Posted(s, n, front).todo) <==> (s.sems[n].waiter.None? || s.sems[n].value == 0)
  {
    Open(s);
    assert SemOk(s, n);
    if s.sems[n].waiter.Some? {
      var u := s.sems[n].waiter.value;
      assert RecordOk(s, u) && PlaceHolds(s, u);
      PostQueues(s, n, front, u);
    }
  }

  /**
   A post leaves todo_queue free of duplicates if and only if no waiter is recorded or the value
   is 0: task_ptr stays set while the activation is pending, so a second post queues the waiter twice.
   */
  lemma PostSafeIff(workers: nat, es: seq<Event>, n: SemId, front: bool)
    requires workers >= 1 && Possible(Init(workers), es)
    requires var s := After(Init(workers), es); ChooseEnabled(s, SemPost(n, front)) && n in s.sems
    ensures var s := After(Init(workers), es);
            NoDup(Posted(s, n, front).todo) <==> (s.sems[n].waiter.None? || s.sems[n].value == 0)
  {
    RunInv(workers, es);
    PostSafe(After(Init(workers), es), n, front);
  }

  lemma PostQueues(s: State, n: SemId, front: bool, u: Id)
    requires QueuesOk(s) && ManagerOk(s) && ChooseEnabled(s, SemPost(n, front)) && n in s.sems
    requires SemOk(s, n) && s.sems[n].waiter == Some(u) && RecordOk(s, u) && PlaceHolds(s, u)
    ensures NoDup(Posted(s, n, front).todo) <==> s.sems[n].value == 0
  {
    var q := Posted(s, n, front).todo;
    assert q == if front then [u] + s.todo else s.todo + [u];
    if s.sems[n].value == 0 {
      assert u !in s.todo;
    } else {
      var i :| 0 <= i < |s.todo| && s.todo[i] == u;
      if front { assert q[0] == q[i + 1]; } else { assert q[i] == q[|s.todo|]; }
    }
  }

  /** The state once a further coroutine has called crt_sem_wait and tested the value. */
  function WaitedToo(s: State, n: SemId): State
    requires ChooseEnabled(s, SemWait(n)) && s.curr in s.tasks && s.curr < |s.logs|
  {
    MainStep(ChooseStep(s, SemWait(n)))
  }

  lemma Overwritten(s: State, n: SemId, u: Id, h: Holder)
    requires ManagerOk(s) && ChooseEnabled(s, SemWait(n)) && n in s.sems && SemOk(s, n)
    requires s.sems[n].waiter == Some(u) && s.sems[n].value == 0 && Holds(WaitedToo(s, n), h, u)
    ensures Holds(s, h, u) && h != Semaphore(n) && s.tasks[u].place == AtSem(n)
  {
  }
}
