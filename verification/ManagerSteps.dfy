/** Every step of the manager thread keeps the invariant. */
module ManagerSteps {
  import opened Actions
  import opened Scheduler
  import opened Seqs
  import opened Invariant
  import opened Frames

  /** A record the manager or the todo queue holds is nobody's unannounced waiter. */
  lemma NotWaiting(s: State, c: Id)
    requires SemsOk(s) && c in s.tasks && !s.tasks[c].place.AtSem?
    requires var p := Cont(s.tasks[c], RunPoint(s.manager, c)); p.None? || !p.value.SemTest?
    ensures forall n :: n in s.sems ==> s.sems[n].waiter != Some(c)
  {
    forall n | n in s.sems ensures s.sems[n].waiter != Some(c) { assert SemOk(s, n); }
  }

  /** A parked waiter waits for one semaphore. */
  lemma WaitsOnce(s: State, u: Id, n: SemId)
    requires SemsOk(s) && u in s.tasks && s.tasks[u].place == AtSem(n)
    ensures forall m :: m in s.sems && s.sems[m].waiter == Some(u) ==> m == n
  {
    forall m | m in s.sems && s.sems[m].waiter == Some(u) ensures m == n { assert SemOk(s, m); }
  }

  /** A coroutine at the head of its loop in crt_sem_wait is recorded in no other semaphore. */
  lemma TestedOnly(s: State, t: Id, n: SemId)
    requires SemsOk(s) && t in s.tasks && !s.tasks[t].place.AtSem? && RunPoint(s.manager, t) == Some(SemTest(n))
    ensures forall m :: m in s.sems && s.sems[m].waiter == Some(t) ==> m == n
  {
    forall m | m in s.sems && s.sems[m].waiter == Some(t) ensures m == n { assert SemOk(s, m); }
  }

  // ----- numbers -----

  /** A step of a coroutine inside a library call keeps the tallies; writing a token is apart. */
  lemma ContinueTallies(s: State, t: Id, at: Point)
    requires ManagerOk(s) && Tallies(s) && s.manager == Running(t, at) && at != User && at != ReqWrite
    ensures Tallies(MainStep(s))
  {
  }

  /** So does a step of the manager loop that does not free a record. */
  lemma LoopTallies(s: State)
    requires ManagerOk(s) && Tallies(s) && MainEnabled(s) && !s.manager.Running? && !s.manager.Dispatch?
    requires s.manager.Took? ==> s.todo != [] && Live(s, s.todo[0])
    ensures Tallies(MainStep(s))
  {
  }

  /** What the proofs about a coroutine's step start from. */
  lemma Carry(s: State, t: Id, at: Point)
    requires Inv(s) && s.manager == Running(t, at) && at != User && at != ReqWrite
    ensures ManagerOk(s) && QueuesOk(s) && Tallies(MainStep(s))
  {
    OpenCore(s);
    ContinueTallies(s, t, at);
  }

  // ----- the steps -----

  lemma TakeUnitEach(s: State)
    requires Inv(s) && s.manager.Waiting? && s.sem > 0
    ensures EachOk(MainStep(s))
  {
    Open(s);
    FreshNumber(s);
    HandoverStep(s, MainStep(s), |s.logs|);
  }

  lemma TakeUnitCore(s: State)
    requires Inv(s) && s.manager.Waiting? && s.sem > 0
    ensures CoreOk(MainStep(s))
  {
    OpenCore(s);
    LoopTallies(s);
    CloseCore(MainStep(s));
  }

  lemma TakeTaskEach(s: State, t: Id)
    requires Inv(s) && s.manager.Took? && s.todo != [] && t == s.todo[0] && Live(s, t) && s.tasks[t].place.InTodo?
    ensures EachOk(MainStep(s))
  {
    OneManager(s);
    AllSems(s);
    var s' := MainStep(s);
    Holding(s, t);
    forall n | n in s.sems && s.sems[n].waiter == Some(t) ensures SemOk(s', n) { assert SemOk(s, n); }
    LocalStep(s, s', t);
  }

  lemma TakeTaskCore(s: State, t: Id)
    requires Inv(s) && s.manager.Took? && s.todo != [] && t == s.todo[0] && Live(s, t) && s.tasks[t].place.InTodo?
    ensures CoreOk(MainStep(s))
  {
    OpenCore(s);
    OneRecord(s, t);
    LoopTallies(s);
    TodoShrinks(s, MainStep(s), t);
    CloseCore(MainStep(s));
  }

  /** The manager starts a new coroutine. */
  lemma StartEach(s: State, t: Id)
    requires Inv(s) && s.manager == Dispatch(t) && Live(s, t) && s.tasks[t].action.NewCoroutine?
    ensures EachOk(MainStep(s))
  {
    OneManager(s);
    AllSems(s);
    var s' := MainStep(s);
    Holding(s, t);
    NotWaiting(s, t);
    LocalStep(s, s', t);
  }

  lemma StartCore(s: State, t: Id)
    requires Inv(s) && s.manager == Dispatch(t) && Live(s, t) && s.tasks[t].action.NewCoroutine?
    ensures CoreOk(MainStep(s))
  {
    OpenCore(s);
    OneRecord(s, t);
    CloseCore(MainStep(s));
  }

  /** A resumed coroutine goes on in user code, reads its result, or tests its semaphore again. */
  lemma ResumeTouched(s: State, t: Id)
    requires ManagerOk(s) && s.manager == Dispatch(t) && IsResumable(s.tasks[t].action) && TouchedOk(s, t)
    ensures var p := s.tasks[t].ctx.point;
            && (p == User || p == GetRet || (p.SemTest? && p.sem in s.sems && s.sems[p.sem].waiter == Some(t)))
            && MainStep(s) == s.(curr := t, tasks := s.tasks[t := s.tasks[t].(ctx := NoContext)], manager := Running(t, p))
            && TouchedOk(MainStep(s), t)
  {
  }

  lemma ResumeSem(s: State, t: Id, n: SemId)
    requires ManagerOk(s) && s.manager == Dispatch(t) && IsResumable(s.tasks[t].action) && TouchedOk(s, t)
    requires n in s.sems && SemOk(s, n)
    ensures s.sems[n].waiter == Some(t) ==> SemOk(MainStep(s), n)
  {
    ResumeTouched(s, t);
  }

  /** The manager resumes a coroutine where it swapped out. */
  lemma ResumeEach(s: State, t: Id)
    requires Inv(s) && s.manager == Dispatch(t) && Live(s, t) && IsResumable(s.tasks[t].action)
    ensures EachOk(MainStep(s))
  {
    OneManager(s);
    AllSems(s);
    var s' := MainStep(s);
    Holding(s, t);
    ResumeTouched(s, t);
    forall n | n in s.sems && s.sems[n].waiter == Some(t) ensures SemOk(s', n) { ResumeSem(s, t, n); }
    LocalStep(s, s', t);
  }

  lemma ResumeManager(s: State, t: Id)
    requires ManagerOk(s) && s.manager == Dispatch(t) && IsResumable(s.tasks[t].action) && TouchedOk(s, t)
    ensures ManagerOk(MainStep(s))
  {
    ResumeTouched(s, t);
  }

  lemma ResumeTallies(s: State, t: Id)
    requires Tallies(s) && s.manager == Dispatch(t) && Live(s, t) && s.tasks[t].ctx.Saved?
    requires IsResumable(s.tasks[t].action) && !s.tasks[t].ctx.point.YieldPost?
    requires !s.tasks[t].ctx.point.WakePost? && !s.tasks[t].ctx.point.BornPost? && !s.tasks[t].ctx.point.ReqWrite?
    ensures Tallies(MainStep(s))
  {
  }

  lemma ResumeCore(s: State, t: Id)
    requires Inv(s) && s.manager == Dispatch(t) && Live(s, t) && IsResumable(s.tasks[t].action)
    ensures CoreOk(MainStep(s))
  {
    OpenCore(s);
    Holding(s, t);
    ResumeTouched(s, t);
    ResumeManager(s, t);
    ResumeTallies(s, t);
    QueuesAside(s, MainStep(s), t);
    CloseCore(MainStep(s));
  }

  lemma ReenterEach(s: State, t: Id)
    requires Inv(s) && s.manager == Check(t) && Live(s, t) && s.tasks[t].action.FinishedCoroutine?
    ensures EachOk(MainStep(s))
  {
    OneManager(s);
    AllSems(s);
    var s' := MainStep(s);
    Holding(s, t);
    NotWaiting(s, t);
    LocalStep(s, s', t);
  }

  lemma ReenterCore(s: State, t: Id)
    requires Inv(s) && s.manager == Check(t) && Live(s, t) && s.tasks[t].action.FinishedCoroutine?
    ensures CoreOk(MainStep(s))
  {
    OpenCore(s);
    LoopTallies(s);
    CloseCore(MainStep(s));
  }

  lemma LetGoEach(s: State, t: Id)
    requires Inv(s) && s.manager == Check(t) && Live(s, t) && !s.tasks[t].action.FinishedCoroutine?
    ensures EachOk(MainStep(s))
  {
    OneManager(s);
    AllSems(s);
    var s' := MainStep(s);
    Holding(s, t);
    HandoverStep(s, s', t);
  }

  lemma LetGoCore(s: State, t: Id)
    requires Inv(s) && s.manager == Check(t) && Live(s, t) && !s.tasks[t].action.FinishedCoroutine?
    ensures CoreOk(MainStep(s))
  {
    OpenCore(s);
    LoopTallies(s);
    CloseCore(MainStep(s));
  }

  lemma PublishRequestEach(s: State, t: Id)
    requires Inv(s) && s.manager == Running(t, ReqPush)
    ensures EachOk(MainStep(s))
  {
    OneManager(s);
    AllSems(s);
    var s' := MainStep(s);
    Holding(s, t);
    NotWaiting(s, t);
    LocalStep(s, s', t);
  }

  lemma PublishRequestCore(s: State, t: Id)
    requires Inv(s) && s.manager == Running(t, ReqPush)
    ensures CoreOk(MainStep(s))
  {
    Carry(s, t, s.manager.at);
    DoingGrows(s, MainStep(s), t);
    CloseCore(MainStep(s));
  }

  lemma PublishYieldEach(s: State, t: Id)
    requires Inv(s) && s.manager == Running(t, YieldPush)
    ensures EachOk(MainStep(s))
  {
    OneManager(s);
    AllSems(s);
    var s' := MainStep(s);
    Holding(s, t);
    NotWaiting(s, t);
    LocalStep(s, s', t);
  }

  lemma PublishYieldCore(s: State, t: Id)
    requires Inv(s) && s.manager == Running(t, YieldPush)
    ensures CoreOk(MainStep(s))
  {
    Carry(s, t, s.manager.at);
    TodoGrows(s, MainStep(s), t);
    CloseCore(MainStep(s));
  }

  lemma WriteTokenEach(s: State, t: Id)
    requires Inv(s) && s.manager == Running(t, ReqWrite) && |s.pipes| > 0
    ensures EachOk(MainStep(s))
  {
    OneManager(s);
    AllSems(s);
    var s' := MainStep(s);
    Holding(s, t);
    HandoverStep(s, s', t);
  }

  lemma WriteTokenCore(s: State, t: Id)
    requires Inv(s) && s.manager == Running(t, ReqWrite) && |s.pipes| > 0
    ensures CoreOk(MainStep(s))
  {
    OpenCore(s);
    var i := s.bgId % |s.pipes|;
    SumUpdate(s.pipes, i, s.pipes[i] + 1);
    CloseCore(MainStep(s));
  }

  lemma YieldSignalEach(s: State, t: Id)
    requires Inv(s) && s.manager == Running(t, YieldPost)
    ensures EachOk(MainStep(s))
  {
    OneManager(s);
    AllSems(s);
    var s' := MainStep(s);
    Holding(s, t);
    HandoverStep(s, s', t);
  }

  lemma YieldSignalCore(s: State, t: Id)
    requires Inv(s) && s.manager == Running(t, YieldPost)
    ensures CoreOk(MainStep(s))
  {
    Carry(s, t, s.manager.at);
    CloseCore(MainStep(s));
  }

  lemma SwapOutEach(s: State, t: Id, p: Point)
    requires Inv(s) && s.manager == Running(t, Swap(p))
    ensures EachOk(MainStep(s))
  {
    OneManager(s);
    AllSems(s);
    var s' := MainStep(s);
    Holding(s, t);
    HandoverStep(s, s', t);
  }

  lemma SwapOutCore(s: State, t: Id, p: Point)
    requires Inv(s) && s.manager == Running(t, Swap(p))
    ensures CoreOk(MainStep(s))
  {
    Carry(s, t, s.manager.at);
    OneRecord(s, t);
    QueuesAside(s, MainStep(s), t);
    CloseCore(MainStep(s));
  }

  lemma SignalForOtherEach(s: State, t: Id)
    requires Inv(s) && (s.manager == Running(t, WakePost) || s.manager == Running(t, BornPost))
    ensures EachOk(MainStep(s))
  {
    OneManager(s);
    AllSems(s);
    var s' := MainStep(s);
    Holding(s, t);
    NotWaiting(s, t);
    LocalStep(s, s', t);
  }

  lemma SignalForOtherCore(s: State, t: Id)
    requires Inv(s) && (s.manager == Running(t, WakePost) || s.manager == Running(t, BornPost))
    ensures CoreOk(MainStep(s))
  {
    Carry(s, t, s.manager.at);
    CloseCore(MainStep(s));
  }

  lemma ReadResultEach(s: State, t: Id)
    requires Inv(s) && s.manager == Running(t, GetRet)
    ensures EachOk(MainStep(s))
  {
    OneManager(s);
    AllSems(s);
    var s' := MainStep(s);
    Holding(s, t);
    NotWaiting(s, t);
    LocalStep(s, s', t);
  }

  lemma ReadResultCore(s: State, t: Id)
    requires Inv(s) && s.manager == Running(t, GetRet)
    ensures CoreOk(MainStep(s))
  {
    Carry(s, t, s.manager.at);
    CloseCore(MainStep(s));
  }

  lemma AwakenTouched(s: State, t: Id, u: Id, n: SemId, front: bool)
    requires ManagerOk(s) && s.manager == Running(t, WakePush(n, front)) && s.sems[n].waiter == Some(u)
    requires TouchedOk(s, t) && TouchedOk(s, u) && SemOk(s, n)
    ensures var s' := MainStep(s); TouchedOk(s', t) && TouchedOk(s', u) && SemOk(s', n)
  {
  }

  lemma AwakenKept(s: State, s': State, t: Id, u: Id, n: SemId, q: seq<Id>)
    requires EachOk(s) && Live(s, t) && Live(s, u) && n in s.sems
    requires s.manager.Running? && s.manager.t == t && IsWaking(s.manager, n)
    requires s.tasks[t].place.AtManager? && s.tasks[u].place == AtSem(n)
    requires s' == s.(todo := q, tasks := s.tasks[u := s.tasks[u].(place := InTodo)], manager := Running(t, WakePost))
    requires TouchedOk(s', t) && TouchedOk(s', u) && SemOk(s', n)
    ensures EachOk(s')
  {
    OpenEach(s);
    assert RecordOk(s, t);
    NotWaiting(s, t);
    WaitsOnce(s, u, n);
    TouchStep(s, s', {t, u}, {n});
  }

  /** crt_sem_post queues the waiter it found. */
  lemma AwakenEach(s: State, t: Id, u: Id, n: SemId, front: bool)
    requires Inv(s) && s.manager == Running(t, WakePush(n, front)) && n in s.sems && s.sems[n].waiter == Some(u)
    ensures EachOk(MainStep(s))
  {
    OneManager(s);
    AllSems(s);
    var s' := MainStep(s);
    Holding(s, t);
    assert SemOk(s, n);
    Holding(s, u);
    AwakenTouched(s, t, u, n, front);
    AwakenKept(s, s', t, u, n, s'.todo);
  }

  lemma AwakenManager(s: State, t: Id, u: Id, n: SemId, front: bool)
    requires ManagerOk(s) && s.manager == Running(t, WakePush(n, front)) && s.sems[n].waiter == Some(u)
    ensures ManagerOk(MainStep(s))
  {
  }

  lemma AwakenCore(s: State, t: Id, u: Id, n: SemId, front: bool)
    requires Inv(s) && s.manager == Running(t, WakePush(n, front)) && n in s.sems && s.sems[n].waiter == Some(u)
    ensures CoreOk(MainStep(s))
  {
    Carry(s, t, s.manager.at);
    AwakenManager(s, t, u, n, front);
    TodoGrows(s, MainStep(s), u);
    CloseCore(MainStep(s));
  }

  lemma DeliverTouched(s: State, t: Id, u: Id)
    requires ManagerOk(s) && s.manager == Running(t, BornPush(u))
    requires TouchedOk(s, t) && TouchedOk(s, u)
    ensures var s' := MainStep(s); TouchedOk(s', t) && TouchedOk(s', u)
  {
  }

  lemma DeliverTouch(s: State, s': State, t: Id, u: Id)
    requires SemsOk(s) && Live(s, t) && Live(s, u) && RecordOk(s, t) && RecordOk(s, u)
    requires s.manager == Running(t, BornPush(u))
    requires s.tasks[t].place.AtManager? && s.tasks[u].place == Unborn(false)
    requires s' == s.(todo := s.todo + [u], tasks := s.tasks[u := s.tasks[u].(place := InTodo)], manager := Running(t, BornPost))
    requires TouchedOk(s', t) && TouchedOk(s', u)
    ensures Touch(s, s', {t, u}, {})
  {
    NotWaiting(s, t);
    NotWaiting(s, u);
  }

  /** crt_create, called by a coroutine, queues the new record. */
  lemma DeliverEach(s: State, t: Id, u: Id)
    requires Inv(s) && s.manager == Running(t, BornPush(u))
    ensures EachOk(MainStep(s))
  {
    OneManager(s);
    AllSems(s);
    var s' := MainStep(s);
    Holding(s, t);
    Holding(s, u);
    DeliverTouched(s, t, u);
    DeliverTouch(s, s', t, u);
    TouchStep(s, s', {t, u}, {});
  }

  lemma DeliverManager(s: State, t: Id, u: Id)
    requires ManagerOk(s) && s.manager == Running(t, BornPush(u))
    ensures ManagerOk(MainStep(s))
  {
  }

  lemma DeliverCore(s: State, t: Id, u: Id)
    requires Inv(s) && s.manager == Running(t, BornPush(u))
    ensures CoreOk(MainStep(s))
  {
    Carry(s, t, s.manager.at);
    DeliverManager(s, t, u);
    TodoGrows(s, MainStep(s), u);
    CloseCore(MainStep(s));
  }

  lemma TestTouched(s: State, t: Id, n: SemId)
    requires ManagerOk(s) && s.manager == Running(t, SemTest(n)) && TouchedOk(s, t) && SemOk(s, n)
    ensures var s' := MainStep(s); TouchedOk(s', t) && SemOk(s', n)
    ensures s.sems[n].waiter.None? || s.sems[n].waiter == Some(t)
  {
  }

  lemma TestTouch(s: State, s': State, t: Id, n: SemId, at: Point)
    requires SemsOk(s) && Live(s, t) && s.tasks[t].place.AtManager? && s.manager == Running(t, SemTest(n))
    requires n in s.sems && (s.sems[n].waiter.None? || s.sems[n].waiter == Some(t)) && n in s'.sems && t in s'.tasks
    requires s' == s.(sems := s.sems[n := s'.sems[n]], tasks := s.tasks[t := s'.tasks[t]], manager := Running(t, at))
    requires TouchedOk(s', t) && SemOk(s', n) && !at.WakePush?
    ensures Touch(s, s', {t}, {n})
  {
    TestedOnly(s, t, n);
  }

  /** crt_sem_wait finds a unit. */
  lemma TakeSemEach(s: State, t: Id, n: SemId)
    requires Inv(s) && s.manager == Running(t, SemTest(n)) && n in s.sems && s.sems[n].value > 0
    ensures EachOk(MainStep(s))
  {
    OneManager(s);
    AllSems(s);
    var s' := MainStep(s);
    Holding(s, t);
    assert SemOk(s, n);
    TestTouched(s, t, n);
    TestTouch(s, s', t, n, s'.manager.at);
    TouchStep(s, s', {t}, {n});
  }

  lemma TakeSemCore(s: State, t: Id, n: SemId)
    requires Inv(s) && s.manager == Running(t, SemTest(n)) && n in s.sems && s.sems[n].value > 0
    ensures CoreOk(MainStep(s))
  {
    Carry(s, t, s.manager.at);
    CloseCore(MainStep(s));
  }

  /** crt_sem_wait finds none and leaves the record in the semaphore. */
  lemma ParkEach(s: State, t: Id, n: SemId)
    requires Inv(s) && s.manager == Running(t, SemTest(n)) && n in s.sems && s.sems[n].value <= 0
    ensures EachOk(MainStep(s))
  {
    OneManager(s);
    AllSems(s);
    var s' := MainStep(s);
    Holding(s, t);
    assert SemOk(s, n);
    TestTouched(s, t, n);
    TestTouch(s, s', t, n, s'.manager.at);
    TouchStep(s, s', {t}, {n});
  }

  lemma ParkManager(s: State, t: Id, n: SemId)
    requires ManagerOk(s) && s.manager == Running(t, SemTest(n)) && n in s.sems && s.sems[n].value <= 0
    ensures ManagerOk(MainStep(s))
  {
  }

  lemma ParkCore(s: State, t: Id, n: SemId)
    requires Inv(s) && s.manager == Running(t, SemTest(n)) && n in s.sems && s.sems[n].value <= 0
    ensures CoreOk(MainStep(s))
  {
    Carry(s, t, s.manager.at);
    ParkManager(s, t, n);
    QueuesAside(s, MainStep(s), t);
    CloseCore(MainStep(s));
  }
}
