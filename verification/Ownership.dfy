/** Who holds a task record, and what follows for crashes, contexts, watchers and freeing. */
module Ownership {
  import opened Actions
  import opened Scheduler
  import opened Seqs
  import opened Invariant
  import opened Runs

  /** The places of the runtime that can hold a task record; none mentions the bookkeeping field. */
  datatype Holder =
    | TodoQueue | DoingQueue | WorkerThread(w: nat) | EventLoop(w: nat)
    | Semaphore(k: SemId) | ManagerThread | Creator

  predicate Holds(s: State, h: Holder, t: Id) {
    match h
    case TodoQueue => t in s.todo
    case DoingQueue => t in s.doing
    case WorkerThread(w) => w < |s.workers| && Owned(s.workers[w]) == Some(t)
    case EventLoop(w) => t in s.watch && s.watch[t].w == w
    case Semaphore(k) => k in s.sems && s.sems[k].waiter == Some(t) && (s.sems[k].value == 0 || IsWaking(s.manager, k))
    case ManagerThread => ManagerHolds(s, t)
    case Creator => t in s.creating || RunsAt(s.manager, BornPush(t))
  }

  /** The manager has shifted the record, runs its unpublished coroutine, or is about to free it. */
  predicate ManagerHolds(s: State, t: Id) {
    match s.manager
    case Dispatch(u) => u == t
    case Running(u, at) => u == t && !Published(at)
    case Check(u) => u == t && t in s.tasks && s.tasks[t].action.FinishedCoroutine?
    case _ => false
  }

  /** The coroutine returned without crt_exit, so nobody will ever free its record. */
  predicate Lost(s: State, t: Id) { t < |s.logs| && EndsWith(s.logs[t], Return) }

  function HolderOf(s: State, t: Id): Option<Holder>
    requires t in s.tasks
  {
    match s.tasks[t].place
    case Unborn(_) => Some(Creator)
    case InTodo => Some(TodoQueue)
    case InDoing => Some(DoingQueue)
    case AtWorker(w) => Some(WorkerThread(w))
    case Watched => if t in s.watch then Some(EventLoop(s.watch[t].w)) else None
    case AtSem(k) => Some(Semaphore(k))
    case AtManager => Some(ManagerThread)
    case Abandoned => None
  }

  lemma QueueHolds(s: State, h: Holder, t: Id)
    requires QueuesOk(s) && Holds(s, h, t) && (h.TodoQueue? || h.DoingQueue?)
    ensures t in s.tasks && HolderOf(s, t) == Some(h)
  {
  }

  lemma ThreadHolds(s: State, h: Holder, t: Id)
    requires EachOk(s) && ManagerOk(s) && Holds(s, h, t) && !h.TodoQueue? && !h.DoingQueue?
    ensures t in s.tasks && HolderOf(s, t) == Some(h)
  {
    OpenEach(s);
    if h.WorkerThread? { assert WorkerOk(s, h.w); }
    if h.EventLoop? { assert WatchOk(s, t); }
    if h.Semaphore? { assert SemOk(s, h.k); }
  }

  lemma HoldsOnly(s: State, h: Holder, t: Id)
    requires Inv(s) && Holds(s, h, t)
    ensures t in s.tasks && HolderOf(s, t) == Some(h)
  {
    Open(s);
    if h.TodoQueue? || h.DoingQueue? { QueueHolds(s, h, t); } else { ThreadHolds(s, h, t); }
  }

  lemma HoldsNamed(s: State, t: Id)
    requires Inv(s) && t in s.tasks && HolderOf(s, t).Some?
    ensures Holds(s, HolderOf(s, t).value, t)
  {
    Open(s);
    assert RecordOk(s, t) && PlaceHolds(s, t);
    match s.tasks[t].place
    case AtSem(k) => assert SemOk(s, k);
    case _ =>
  }

  /**
   In every reachable state a live record has exactly one holder, and is queued at most once;
   a record without a holder is that of a coroutine that returned without crt_exit.
   */
  lemma ExclusiveOwnership(workers: nat, es: seq<Event>, t: Id)
    requires workers >= 1 && Possible(Init(workers), es)
    ensures var s := After(Init(workers), es);
      && NoDup(s.todo) && NoDup(s.doing)
      && (forall h, h' :: Holds(s, h, t) && Holds(s, h', t) ==> h == h')
      && (t in s.tasks && !Lost(s, t) <==> exists h :: Holds(s, h, t))
  {
    var s := After(Init(workers), es);
    RunInv(workers, es);
    Open(After(Init(workers), es));
    forall h | Holds(s, h, t) ensures t in s.tasks && HolderOf(s, t) == Some(h) && !Lost(s, t) {
      HoldsOnly(s, h, t);
      assert RecordOk(s, t);
    }
    if t in s.tasks && !Lost(s, t) {
      assert RecordOk(s, t) && PlaceHolds(s, t);
      HoldsNamed(s, t);
    }
  }

  /** No thread has aborted, failed an assertion, or dereferenced a missing record. */
  predicate AllRunning(s: State) {
    !s.manager.Aborted? && forall w {:trigger s.workers[w]} :: 0 <= w < |s.workers| ==> !s.workers[w].Dead?
  }

  /** For any state of the invariant. */
  lemma NobodyAborts(s: State)
    requires Inv(s)
    ensures AllRunning(s)
  {
    Open(s);
    forall w | 0 <= w < |s.workers| ensures !s.workers[w].Dead? { assert WorkerOk(s, w); }
  }

  /** No thread ever aborts, fails an assertion, or dereferences a missing record. */
  lemma NeverCrashes(workers: nat, es: seq<Event>)
    requires workers >= 1 && Possible(Init(workers), es)
    ensures AllRunning(After(Init(workers), es))
  {
    RunInv(workers, es);
    NobodyAborts(After(Init(workers), es));
  }

  /**
   Whatever but the manager holds record t, its context is saved, or the manager thread is still on
   its way to the swap; and when the manager turns to the record, it resumes it where it was saved.
  */
  predicate SavedOrLeaving(s: State, t: Id, h: Holder) {
    && t in s.tasks
    && (!h.ManagerThread? && !s.tasks[t].action.NewCoroutine? ==>
          s.tasks[t].ctx.Saved? || (s.manager.Running? && s.manager.t == t && Published(s.manager.at)))
    && (s.manager == Dispatch(t) && IsResumable(s.tasks[t].action) ==>
          s.tasks[t].ctx.Saved? && MainStep(s).manager == Running(t, s.tasks[t].ctx.point))
  }

  /** For any state of the invariant. */
  lemma SavedFirst(s: State, t: Id, h: Holder)
    requires Inv(s)
    requires Holds(s, h, t) && !h.Creator?
    ensures SavedOrLeaving(s, t, h)
  {
    Open(s);
    HoldsOnly(s, h, t);
    assert RecordOk(s, t) && PlaceHolds(s, t);
    if s.manager == Dispatch(t) { assert RecordOk(s, t); }
  }

  /**
   A record handed on before its swapcontext is not resumed before it: whatever queue, worker,
   loop or semaphore holds it, either its context is saved, or the manager thread itself is still
   on its way to the swap; and when the manager turns to a record, its context is saved.
   */
  lemma SavedBeforeResumed(workers: nat, es: seq<Event>, t: Id, h: Holder)
    requires workers >= 1 && Possible(Init(workers), es)
    requires Holds(After(Init(workers), es), h, t) && !h.Creator?
    ensures SavedOrLeaving(After(Init(workers), es), t, h)
  {
    RunInv(workers, es);
    SavedFirst(After(Init(workers), es), t, h);
  }

  /** The actions for which the switch of the manager loop has a case. */
  predicate HasCase(a: Action) { a.NewCoroutine? || a.FinishedCoroutine? || IsResumable(a) }

  /** What a holder may find in the record it holds. */
  predicate Fits(h: Holder, k: Task) {
    match h
    case TodoQueue => k.action.NewCoroutine? || IsResumable(k.action)
    case DoingQueue => IsRequest(k.action)
    case EventLoop(_) => IsRequest(k.action) && !IsSynchronous(k.action)
    case WorkerThread(_) => IsRequest(k.action) || IsDone(k.action)
    case Semaphore(_) => !k.action.FinishedCoroutine?
    case Creator => k.action.NewCoroutine?
    case ManagerThread => true
  }

  /** What a holder finds has a case, also for the manager at its switch; after a swap, finished means crt_exit. */
  predicate SwitchFits(s: State, h: Holder, t: Id) {
    && (Holds(s, h, t) ==> t in s.tasks && Fits(h, s.tasks[t]))
    && (s.manager == Dispatch(t) ==> t in s.tasks && HasCase(s.tasks[t].action))
    && (s.manager == Check(t) ==> Live(s, t) && (s.tasks[t].action.FinishedCoroutine? <==> EndsWith(s.logs[t], Exit)))
  }

  /** For any state of the invariant. */
  lemma FitsSwitch(s: State, h: Holder, t: Id)
    requires Inv(s)
    ensures SwitchFits(s, h, t)
  {
    Open(s);
    if Holds(s, h, t) {
      HoldsOnly(s, h, t);
      HeldFits(s, h, t);
    }
    if s.manager == Check(t) { assert RecordOk(s, t) && LogOk(s, t); }
  }

  /**
   What the queues hold fits the switch that will read it, so neither default case is reached;
   and after a swap the manager finds act_finished_coroutine exactly when that coroutine called crt_exit.
   */
  lemma ActionsFit(workers: nat, es: seq<Event>, h: Holder, t: Id)
    requires workers >= 1 && Possible(Init(workers), es)
    ensures SwitchFits(After(Init(workers), es), h, t)
  {
    RunInv(workers, es);
    FitsSwitch(After(Init(workers), es), h, t);
  }

  lemma HeldFits(s: State, h: Holder, t: Id)
    requires Inv(s) && t in s.tasks && HolderOf(s, t) == Some(h)
    ensures Fits(h, s.tasks[t])
  {
    Open(s);
    assert RecordOk(s, t) && PlaceHolds(s, t);
    if h.EventLoop? { assert WatchOk(s, t); }
  }

  // ----- freeing -----

  /** A record is freed at most once, after crt_exit, and is live until then. */
  predicate FreedRight(s: State, t: Id)
    requires t < |s.logs|
  {
    s.logs[t].frees == (if t in s.tasks then 0 else 1) && (s.logs[t].frees == 1 ==> EndsWith(s.logs[t], Exit))
  }

  /** For any state of the invariant. */
  lemma FreesCounted(s: State, t: Id)
    requires Inv(s) && t < |s.logs|
    ensures FreedRight(s, t)
  {
    Open(s);
    assert LogOk(s, t);
    if t in s.tasks { assert RecordOk(s, t); }
  }

  /** Only a coroutine that called crt_exit is freed, at most once, and it is live until then. */
  lemma FreedOnce(workers: nat, es: seq<Event>, t: Id)
    requires workers >= 1 && Possible(Init(workers), es) && t < |After(Init(workers), es).logs|
    ensures FreedRight(After(Init(workers), es), t)
  {
    RunInv(workers, es);
    FreesCounted(After(Init(workers), es), t);
  }

  /** When the manager frees a record, it frees the one it took, and nothing else holds it. */
  lemma FreedAlone(workers: nat, es: seq<Event>, t: Id)
    requires workers >= 1 && Possible(Init(workers), es)
    requires var s := After(Init(workers), es);
             s.manager == Dispatch(t) && Live(s, t) && s.tasks[t].action.FinishedCoroutine?
    ensures var s := After(Init(workers), es);
      && s.curr == t && MainStep(s).tasks == s.tasks - {t}
      && t !in s.todo && t !in s.doing && t !in s.watch && t !in s.creating
      && (forall w {:trigger s.workers[w]} :: 0 <= w < |s.workers| ==> Owned(s.workers[w]) != Some(t))
      && (forall n :: n in s.sems ==> s.sems[n].waiter != Some(t))
  {
    var s := After(Init(workers), es);
    RunInv(workers, es);
    Open(After(Init(workers), es));
    assert RecordOk(s, t);
    NotWatched(s, t);
    forall w | 0 <= w < |s.workers| ensures Owned(s.workers[w]) != Some(t) { assert WorkerOk(s, w); }
    forall n | n in s.sems ensures s.sems[n].waiter != Some(t) { assert SemOk(s, n); }
  }
}
