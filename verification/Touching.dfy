/** A thread writes only to records it holds; so a worker that has announced a task leaves it alone. */
module Touching {
  import opened Actions
  import opened Scheduler
  import opened Seqs
  import opened Invariant
  import opened Runs
  import opened Ownership

  /** What the acting thread holds, or is just taking from a queue. */
  predicate InHand(s: State, e: Event, u: Id) {
    match e
    case Main => ManagerMay(s, u)
    case Choose(op) => Holds(s, ManagerThread, u) || (op.SemPost? && Holds(s, Semaphore(op.k), u))
    case Work(w, _, _) =>
      || Holds(s, WorkerThread(w), u)
      || (w < |s.workers| && s.workers[w].Token? && s.doing != [] && s.doing[0] == u)
    case Fire(w, t, _, _) => u == t && Holds(s, EventLoop(w), u)
    case BeginPush(t) => u == t && t in s.creating
    case _ => false
  }

  /**
   The manager thread: what it holds; the record that the running coroutine is creating; the waiter
   of the semaphore that the running coroutine is posting; the task at the head, when it shifts it.
  */
  predicate ManagerMay(s: State, u: Id) {
    || Holds(s, ManagerThread, u)
    || RunsAt(s.manager, BornPush(u))
    || (s.manager.Running? && s.manager.at.WakePush? && Holds(s, Semaphore(s.manager.at.sem), u))
    || (s.manager.Took? && s.todo != [] && s.todo[0] == u)
  }

  /** A coroutine that has published its record still saves its context in it, and nothing else. */
  predicate SavesContext(s: State, e: Event, s': State, u: Id)
    requires u in s.tasks
  {
    && e.Main? && s.manager.Running? && s.manager.at.Swap? && u == s.curr
    && u in s'.tasks && s'.tasks[u] == s.tasks[u].(ctx := s'.tasks[u].ctx)
  }

  predicate Untouched(s: State, s': State, u: Id)
    requires u in s.tasks
  {
    u in s'.tasks && s'.tasks[u] == s.tasks[u]
  }

  /** The event writes to, or frees, no record but those in the hands of its thread. */
  predicate TouchesHeld(s: State, e: Event)
    requires Enabled(s, e)
  {
    forall u :: u in s.tasks ==>
      Untouched(s, Step(s, e), u) || InHand(s, e, u) || SavesContext(s, e, Step(s, e), u)
  }

  lemma WorkerTouches(s: State, w: nat, raw: Ret, immediate: bool)
    requires WorkEnabled(s, w)
    ensures TouchesHeld(s, Work(w, raw, immediate))
  {
  }

  lemma CallbackTouches(s: State, w: nat, t: Id, timer: bool, raw: Option<Ret>)
    requires FireEnabled(s, w, t, timer, raw)
    ensures TouchesHeld(s, Fire(w, t, timer, raw))
  {
  }

  lemma ManagerTouches(s: State)
    requires ManagerOk(s) && MainEnabled(s)
    requires s.manager.Running? && s.manager.at.WakePush? ==>
               var n := s.manager.at.sem; n in s.sems && s.sems[n].waiter.Some? && Holds(s, Semaphore(n), s.sems[n].waiter.value)
    ensures TouchesHeld(s, Main)
  {
  }

  lemma ChooserTouches(s: State, op: Op)
    requires ManagerOk(s) && ChooseEnabled(s, op) && |s.logs| !in s.tasks
    requires op.SemPost? && op.k in s.sems && s.sems[op.k].waiter.Some? ==>
               Holds(s, Semaphore(op.k), s.sems[op.k].waiter.value)
    ensures TouchesHeld(s, Choose(op))
  {
  }

  /** For any state of the invariant. */
  lemma StepTouchesHeld(s: State, e: Event)
    requires Inv(s) && Allowed(s, e)
    ensures TouchesHeld(s, e)
  {
    match e
    case Main =>
      OneManager(s);
      ManagerTouches(s);
    case Choose(op) =>
      OneManager(s);
      FreshNumber(s);
      ChooserTouches(s, op);
    case Work(w, raw, immediate) => WorkerTouches(s, w, raw, immediate);
    case Fire(w, t, timer, raw) => CallbackTouches(s, w, t, timer, raw);
    case Begin => FreshNumber(s);
    case _ =>
  }

  /** In every run, every thread writes only to records it holds. */
  lemma RunTouchesHeld(workers: nat, es: seq<Event>, e: Event)
    requires workers >= 1 && Possible(Init(workers), es) && Allowed(After(Init(workers), es), e)
    ensures TouchesHeld(After(Init(workers), es), e)
  {
    RunInv(workers, es);
    StepTouchesHeld(After(Init(workers), es), e);
  }

  // ----- after coroutine_notify_manager -----

  predicate ByWorker(e: Event) { e.Work? || e.Fire? || e.Read? }

  /** Once a worker has pushed the task, todo_queue is its only holder. */
  lemma AnnouncedAlone(s: State, w: nat, raw: Ret, immediate: bool)
    requires Inv(s) && w < |s.workers| && s.workers[w].Notify?
    ensures var t, s' := s.workers[w].t, WorkStep(s, w, raw, immediate);
            t in s'.todo && forall h :: Holds(s', h, t) ==> h == TodoQueue
  {
    var t, s' := s.workers[w].t, WorkStep(s, w, raw, immediate);
    OneWorker(s, w);
    StepKeeps(s, Work(w, raw, immediate));
    forall h | Holds(s', h, t) ensures h == TodoQueue { HoldsOnly(s', h, t); }
  }

  /** Held where no worker and no event loop is concerned. */
  predicate OutOfReach(h: Holder) { h.TodoQueue? || h.ManagerThread? || h.Semaphore? || h.Creator? }

  /** No worker and no callback touches a task that is queued for the manager, taken by it, parked, or new. */
  lemma LeftAlone(s: State, e: Event, t: Id, h: Holder)
    requires Inv(s) && Allowed(s, e) && ByWorker(e) && Holds(s, h, t) && OutOfReach(h)
    ensures t in s.tasks && Untouched(s, Step(s, e), t)
  {
    StepTouchesHeld(s, e);
    HoldsOnly(s, h, t);
    match e
    case Work(w, _, _) =>
      if Holds(s, WorkerThread(w), t) { HoldsOnly(s, WorkerThread(w), t); }
      if t in s.doing { HoldsOnly(s, DoingQueue, t); }
    case Fire(w, _, _, _) =>
      if Holds(s, EventLoop(w), t) { HoldsOnly(s, EventLoop(w), t); }
    case _ =>
  }

  /** In every run: announced tasks are left alone by all workers until they are published again. */
  lemma HandsOff(workers: nat, es: seq<Event>, e: Event, t: Id, h: Holder)
    requires workers >= 1 && Possible(Init(workers), es) && Allowed(After(Init(workers), es), e) && ByWorker(e)
    requires Holds(After(Init(workers), es), h, t) && OutOfReach(h)
    ensures var s := After(Init(workers), es); t in s.tasks && Untouched(s, Step(s, e), t)
  {
    RunInv(workers, es);
    LeftAlone(After(Init(workers), es), e, t, h);
  }
}
