/** In a state that satisfies the invariant, every enabled step finds what it works on. */
module Guards {
  import opened Actions
  import opened Scheduler
  import opened Invariant
  import opened Runs
  import opened Order
  import opened WorkerSteps

  /** A record that may be linked: it is allocated and in neither queue. */
  predicate Free(s: State, t: Id) { Live(s, t) && t !in s.todo && t !in s.doing }

  /** The manager finds a task, its switch has a branch for it, and it frees what nobody links. */
  predicate ManagerReady(s: State) {
    match s.manager
    case Took => s.todo != [] && Live(s, s.todo[0])
    case Check(t) => Live(s, t)
    case Dispatch(t) =>
      && Live(s, t)
      && var k := s.tasks[t];
         || k.action.NewCoroutine? || (k.action.FinishedCoroutine? && s.curr == t && Free(s, t))
         || (IsResumable(k.action) && k.ctx.Saved?)
    case Running(t, at) => RunnerReady(s, at)
    case _ => true
  }

  /** What a coroutine is about to push is in neither queue; the semaphore it uses exists. */
  predicate RunnerReady(s: State, at: Point) {
    && Live(s, s.curr)
    && match at
       case ReqPush => Free(s, s.curr)
       case ReqWrite => |s.pipes| > 0
       case YieldPush => Free(s, s.curr)
       case BornPush(u) => Free(s, u)
       case SemTest(n) => n in s.sems
       case WakePush(n, _) => n in s.sems && s.sems[n].waiter.Some? && Free(s, s.sems[n].waiter.value)
       case _ => true
  }

  predicate ChooserReady(s: State, op: Op) {
    && Live(s, s.curr) && |s.logs| !in s.tasks
    && (op.SemPost? ==> op.k in s.sems && (s.sems[op.k].waiter.Some? ==> Live(s, s.sems[op.k].waiter.value)))
  }

  predicate WorkerReady(s: State, w: nat)
    requires w < |s.workers|
  {
    match s.workers[w]
    case Token => s.doing != [] && Live(s, s.doing[0])
    case Exec(t) => Live(s, t) && IsRequest(s.tasks[t].action)
    case Notify(t, _) => Free(s, t)
    case Dead => false
    case _ => true
  }

  predicate Ready(s: State, e: Event)
    requires Enabled(s, e)
  {
    match e
    case Main => ManagerReady(s)
    case Choose(op) => ChooserReady(s, op)
    case Work(w, _, _) => WorkerReady(s, w)
    case Fire(_, t, _, _) => Live(s, t) && IsRequest(s.tasks[t].action)
    case Begin => |s.logs| !in s.tasks
    case BeginPush(t) => Free(s, t)
    case _ => true
  }

  lemma ManagerIsReady(s: State)
    requires Inv(s)
    ensures ManagerReady(s)
  {
    Open(s);
    match s.manager
    case Took => TaskWaits(s);
    case Dispatch(t) => NotQueued(s, t);
    case Running(t, at) =>
      if at.ReqPush? || at.YieldPush? { NotQueued(s, s.curr); }
      if at.BornPush? { NotQueued(s, at.child); }
      if at.WakePush? { NotQueued(s, s.sems[at.sem].waiter.value); }
    case _ =>
  }

  lemma WorkerIsReady(s: State, w: nat)
    requires Inv(s) && WorkEnabled(s, w)
    ensures WorkerReady(s, w)
  {
    Open(s);
    assert WorkerOk(s, w);
    if s.workers[w].Token? { RequestWaits(s, w); assert RecordOk(s, s.doing[0]); }
    if s.workers[w].Notify? { NotQueued(s, s.workers[w].t); }
  }

  /** No step is taken on a record that is gone, already linked, or of the wrong kind. */
  lemma IsReady(s: State, e: Event)
    requires Inv(s) && Allowed(s, e)
    ensures Ready(s, e)
  {
    Open(s);
    match e
    case Main => ManagerIsReady(s);
    case Choose(op) =>
      FreshNumber(s);
      if op.SemPost? { assert SemOk(s, op.k); }
    case Work(w, _, _) => WorkerIsReady(s, w);
    case Fire(_, t, _, _) => assert WatchOk(s, t);
    case Begin => FreshNumber(s);
    case BeginPush(t) => NotQueued(s, t);
    case _ =>
  }

  lemma RunIsReady(workers: nat, es: seq<Event>, i: nat)
    requires workers >= 1 && Possible(Init(workers), es) && i < |es|
    ensures Possible(Init(workers), es[..i]) && Possible(Init(workers), es[..i + 1])
    ensures var s := After(Init(workers), es[..i]);
            Enabled(s, es[i]) && Ready(s, es[i]) && After(Init(workers), es[..i + 1]) == Step(s, es[i])
  {
    PrefixPossible(Init(workers), es, i + 1);
    assert es[..i + 1][..i] == es[..i];
    RunInv(workers, es[..i]);
    IsReady(After(Init(workers), es[..i]), es[i]);
  }
}
