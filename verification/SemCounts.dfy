/** The law of crt_sem_t counted over the events of a run, not with the fields of the semaphore. */
module SemCounts {
  import opened Actions
  import opened Scheduler
  import opened Invariant
  import opened Runs
  import opened Deadlock

  /** The value that the run initialised semaphore k with, if it did. */
  function InitialValue(es: seq<Event>, k: SemId): Option<nat> {
    if es == [] then None else
    var e := es[|es| - 1];
    if e.Choose? && e.op.SemInit? && e.op.k == k then Some(e.op.v) else InitialValue(es[..|es| - 1], k)
  }

  /** Posts of k, normal and critical. */
  function PostsMade(es: seq<Event>, k: SemId): nat {
    if es == [] then 0 else
    var e := es[|es| - 1];
    PostsMade(es[..|es| - 1], k) + (if e.Choose? && e.op.SemPost? && e.op.k == k then 1 else 0)
  }

  /** Calls of crt_sem_wait on k. */
  function WaitsBegun(es: seq<Event>, k: SemId): nat {
    if es == [] then 0 else
    var e := es[|es| - 1];
    WaitsBegun(es[..|es| - 1], k) + (if e.Choose? && e.op.SemWait? && e.op.k == k then 1 else 0)
  }

  /** In this event a coroutine leaves the loop of crt_sem_wait on k for its own code. */
  predicate EndsWait(s: State, e: Event, k: SemId)
    requires Enabled(s, e)
  {
    e.Main? && RunsAt(s.manager, SemTest(k)) && RunsAt(Step(s, e).manager, User)
  }

  function WaitsEnded(workers: nat, es: seq<Event>, k: SemId): nat
    requires Possible(Init(workers), es)
    decreases |es|
  {
    if es == [] then 0 else
    WaitsEnded(workers, es[..|es| - 1], k)
    + (if EndsWait(After(Init(workers), es[..|es| - 1]), es[|es| - 1], k) then 1 else 0)
  }

  /** Coroutine t is inside crt_sem_wait on k: it runs the loop, leaves the manager thread, or is suspended there. */
  predicate Inside(s: State, t: Id, k: SemId) {
    t in s.tasks && Cont(s.tasks[t], RunPoint(s.manager, t)) == Some(SemTest(k))
  }

  predicate SomebodyInside(s: State, k: SemId) { exists t :: t in s.tasks && Inside(s, t, k) }

  /** The same, by the semaphore: a waiter is recorded, or the loop is at its head. */
  predicate Waited(s: State, k: SemId) {
    (k in s.sems && s.sems[k].waiter.Some?) || RunsAt(s.manager, SemTest(k))
  }

  lemma InsideWaits(s: State, t: Id, k: SemId)
    requires SemsOk(s) && Inside(s, t, k)
    ensures k in s.sems && (s.sems[k].waiter == Some(t) || (s.sems[k].waiter.None? && RunPoint(s.manager, t) == Some(SemTest(k))))
  {
    assert WaiterKnown(s, t);
  }

  lemma WaiterIsInside(s: State, k: SemId)
    requires ManagerOk(s) && SemsOk(s) && RecordsOk(s) && Waited(s, k)
    ensures SomebodyInside(s, k)
  {
    if k in s.sems && s.sems[k].waiter.Some? {
      var t := s.sems[k].waiter.value;
      assert SemOk(s, k) && RecordOk(s, t);
      assert Inside(s, t, k);
    } else {
      assert Inside(s, s.curr, k);
    }
  }

  /** At most one coroutine is inside, and one is exactly if a waiter is recorded or the loop is at its head. */
  lemma InsideOne(s: State, k: SemId)
    requires Inv(s)
    ensures SomebodyInside(s, k) <==> Waited(s, k)
    ensures forall t, u :: Inside(s, t, k) && Inside(s, u, k) ==> t == u
  {
    Open(s);
    if Waited(s, k) { WaiterIsInside(s, k); }
    forall t | Inside(s, t, k) ensures Waited(s, k) { InsideWaits(s, t, k); }
    forall t, u | Inside(s, t, k) && Inside(s, u, k) ensures t == u { InsideWaits(s, t, k); InsideWaits(s, u, k); }
  }

  // ----- one step -----

  predicate Posts(e: Event, k: SemId) { e.Choose? && e.op.SemPost? && e.op.k == k }

  predicate Begins(e: Event, k: SemId) { e.Choose? && e.op.SemWait? && e.op.k == k }

  predicate Inits(e: Event, k: SemId) { e.Choose? && e.op.SemInit? && e.op.k == k }

  function One(b: bool): nat { if b then 1 else 0 }

  /** A step changes the value by the posts it makes and the waits it ends, and who is inside by those it begins and ends. */
  predicate StepCounts(s: State, e: Event, s': State, k: SemId)
    requires Enabled(s, e)
  {
    && (k in s'.sems <==> k in s.sems || Inits(e, k))
    && (k in s.sems ==>
          && !Inits(e, k)
          && s'.sems[k].value == s.sems[k].value + One(Posts(e, k)) - One(EndsWait(s, e, k))
          && One(Waited(s', k)) == One(Waited(s, k)) + One(Begins(e, k)) - One(EndsWait(s, e, k)))
    && (k !in s.sems ==>
          && !Posts(e, k) && !Begins(e, k) && !EndsWait(s, e, k)
          && (Inits(e, k) ==> s'.sems[k].value == e.op.v && !Waited(s', k)))
  }

  lemma MainCounts(s: State, k: SemId)
    requires ManagerOk(s) && SemsOk(s) && RecordsOk(s) && MainEnabled(s)
    ensures StepCounts(s, Main, MainStep(s), k)
  {
    if s.manager.Running? {
      RunnerCounts(s, k);
    } else {
      LoopCounts(s, k);
    }
  }

  lemma RunnerCounts(s: State, k: SemId)
    requires ManagerOk(s) && MainEnabled(s) && s.manager.Running?
    ensures StepCounts(s, Main, MainStep(s), k)
  {
  }

  /** A coroutine resumed inside the loop is the recorded waiter. */
  lemma LoopCounts(s: State, k: SemId)
    requires ManagerOk(s) && SemsOk(s) && MainEnabled(s) && !s.manager.Running?
    ensures StepCounts(s, Main, MainStep(s), k)
  {
    if s.manager.Dispatch? { assert WaiterKnown(s, s.manager.t); }
  }

  lemma ChoiceCounts(s: State, op: Op, k: SemId)
    requires ManagerOk(s) && SemsOk(s) && ChooseEnabled(s, op) && Disciplined(s, op)
    ensures StepCounts(s, Choose(op), ChooseStep(s, op), k)
  {
    if op.SemPost? { assert SemOk(s, op.k); }
  }

  lemma OthersCountNot(s: State, e: Event, k: SemId)
    requires Enabled(s, e) && !e.Main? && !e.Choose? && (k !in s.sems ==> !RunsAt(s.manager, SemTest(k)))
    ensures StepCounts(s, e, Step(s, e), k)
  {
    assert Step(s, e).sems == s.sems && Step(s, e).manager == s.manager;
  }

  lemma CountStep(s: State, e: Event, k: SemId)
    requires Inv(s) && Allowed(s, e)
    ensures StepCounts(s, e, Step(s, e), k)
  {
    Open(s);
    match e
    case Main => MainCounts(s, k);
    case Choose(op) => ChoiceCounts(s, op, k);
    case _ => OthersCountNot(s, e, k);
  }

  // ----- runs -----

  /** The value is what the semaphore was initialised with, plus posts, minus the waits that have returned. */
  predicate Counted(workers: nat, es: seq<Event>, k: SemId)
    requires Possible(Init(workers), es)
  {
    var s, v, ended := After(Init(workers), es), InitialValue(es, k), WaitsEnded(workers, es, k);
    && (k in s.sems <==> v.Some?)
    && (v.Some? ==>
          && s.sems[k].value == v.value + PostsMade(es, k) - ended
          && WaitsBegun(es, k) == ended + One(Waited(s, k)))
    && (v.None? ==> PostsMade(es, k) == WaitsBegun(es, k) == ended == 0)
  }

  lemma {:induction false} RunCounts(workers: nat, es: seq<Event>, k: SemId)
    requires workers >= 1 && Possible(Init(workers), es)
    ensures Counted(workers, es, k)
    decreases |es|
  {
    if es != [] {
      var before, e := es[..|es| - 1], es[|es| - 1];
      RunCounts(workers, before, k);
      RunInv(workers, before);
      CountStep(After(Init(workers), before), e, k);
    }
  }

  /**
   For every interleaving: a semaphore exists once it is initialised, and its value is the initial
   one, plus the posts made, minus the calls of crt_sem_wait that have returned, never below zero.
   Of the calls begun all have returned, but for the one of the coroutine inside, if there is one.
  */
  lemma ValueByEvents(workers: nat, es: seq<Event>, k: SemId)
    requires workers >= 1 && Possible(Init(workers), es)
    ensures var s, v, ended := After(Init(workers), es), InitialValue(es, k), WaitsEnded(workers, es, k);
            && (k in s.sems <==> v.Some?)
            && (v.Some? ==>
                  && s.sems[k].value == v.value + PostsMade(es, k) - ended >= 0
                  && WaitsBegun(es, k) == ended + (if SomebodyInside(s, k) then 1 else 0))
  {
    RunCounts(workers, es, k);
    RunInv(workers, es);
    InsideOne(After(Init(workers), es), k);
    AllSems(After(Init(workers), es));
    assert k in After(Init(workers), es).sems ==> SemOk(After(Init(workers), es), k);
  }

  /**
   No wake-up is lost: when nothing can move, as many calls of crt_sem_wait have returned as there
   were units for, or as were begun.
  */
  lemma AllUnitsTaken(workers: nat, es: seq<Event>, k: SemId)
    requires workers >= 1 && Possible(Init(workers), es) && Stuck(After(Init(workers), es)) && InitialValue(es, k).Some?
    ensures var units, begun := InitialValue(es, k).value + PostsMade(es, k), WaitsBegun(es, k);
            WaitsEnded(workers, es, k) == if begun <= units then begun else units
  {
    ValueByEvents(workers, es, k);
    RunInv(workers, es);
    var s := After(Init(workers), es);
    if SomebodyInside(s, k) { NobodyLeftBehind(s, k); }
  }

  /** Where nothing can move, a coroutine inside crt_sem_wait finds the value 0. */
  lemma NobodyLeftBehind(s: State, k: SemId)
    requires Inv(s) && Stuck(s) && SomebodyInside(s, k)
    ensures k in s.sems && s.sems[k].value == 0
  {
    Open(s);
    AllIdle(s);
    QueuesEmpty(s);
    InsideOne(s, k);
    var t := s.sems[k].waiter.value;
    assert SemOk(s, k) && PlaceHolds(s, t);
  }
}
