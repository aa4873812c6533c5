/** The runtime stops only when every coroutine waits for a post or for an armed watcher. */
module Deadlock {
  import opened Actions
  import opened Scheduler
  import opened Seqs
  import opened Invariant
  import opened Runs

  /** No thread of the runtime, and no thread inside crt_create, can take a step of its own. */
  predicate Stuck(s: State) {
    && !MainEnabled(s) && !ChooseEnabled(s, Yield)
    && (forall w {:trigger s.workers[w]} :: 0 <= w < |s.workers| ==> !ReadEnabled(s, w) && !WorkEnabled(s, w))
    && (forall t :: t in s.creating ==> !BeginPushEnabled(s, t)) && s.unposted == 0
  }

  /** The coroutine is parked in a semaphore that has no unit for it. */
  predicate Parked(s: State, t: Id) {
    exists k :: k in s.sems && s.sems[k].waiter == Some(t) && s.sems[k].value == 0
  }

  /** The callback may run, whatever it finds, and takes the worker to the announcement of t. */
  predicate Answerable(s: State, w: nat, t: Id, timer: bool, raw: Ret) {
    var e := Fire(w, t, timer, Some(raw));
    Enabled(s, e) && w < |Step(s, e).workers| && Step(s, e).workers[w] == Notify(t, false)
  }

  /** A watcher is armed in the loop of an idle worker, and every armed watcher may fire now. */
  ghost predicate Watching(s: State, t: Id) {
    && t in s.watch && (s.watch[t].io || s.watch[t].timer)
    && (s.watch[t].io ==> forall raw :: Answerable(s, s.watch[t].w, t, false, raw))
    && (s.watch[t].timer ==> forall raw :: Answerable(s, s.watch[t].w, t, true, raw))
  }

  /** The coroutine waits for a post or a watcher, or walked away without crt_exit. */
  ghost predicate AtRest(s: State, t: Id) {
    t < |s.logs| && (EndsWith(s.logs[t], Return) || Parked(s, t) || Watching(s, t))
  }

  /** Both queues are empty, and every live coroutine is at rest. */
  ghost predicate AllRest(s: State) {
    s.todo == [] && s.doing == [] && forall t :: t in s.tasks ==> AtRest(s, t)
  }

  /** An armed watcher of an idle worker is never held back. */
  lemma ArmedMayFire(s: State, t: Id)
    requires WatchesOk(s) && t in s.watch && s.watch[t].w < |s.workers| && s.workers[s.watch[t].w].Idle?
    ensures Watching(s, t)
  {
    assert WatchOk(s, t);
  }

  lemma AllIdle(s: State)
    requires Inv(s) && Stuck(s)
    ensures s.manager.Waiting? && s.sem == 0 && s.creating == {} && |s.pipes| == |s.workers|
    ensures forall w {:trigger s.workers[w]} {:trigger s.pipes[w]} ::
              0 <= w < |s.workers| ==> s.workers[w].Idle? && s.pipes[w] == 0
  {
    Open(s);
    forall w | 0 <= w < |s.workers| ensures s.workers[w].Idle? && s.pipes[w] == 0 {
      assert WorkerOk(s, w) && !ReadEnabled(s, w) && !WorkEnabled(s, w);
    }
    assert s.creating == {} by {
      if t :| t in s.creating { assert RecordOk(s, t) && BeginPushEnabled(s, t); }
    }
  }

  lemma NobodyAnnounces(workers: seq<Worker>)
    requires forall w {:trigger workers[w]} :: 0 <= w < |workers| ==> workers[w].Idle?
    ensures Sum(Map(PostCount, workers)) == 0 && Sum(Map(TokenCount, workers)) == 0
  {
    SumZero(Map(PostCount, workers));
    SumZero(Map(TokenCount, workers));
  }

  lemma QueuesEmpty(s: State)
    requires Inv(s) && Stuck(s)
    ensures s.todo == [] && s.doing == []
  {
    Open(s);
    AllIdle(s);
    SumZero(s.pipes);
    NobodyAnnounces(s.workers);
  }

  /** For any state of the invariant. */
  lemma StuckWaits(s: State)
    requires Inv(s) && Stuck(s)
    ensures AllRest(s)
  {
    Open(s);
    AllIdle(s);
    QueuesEmpty(s);
    forall t | t in s.tasks ensures AtRest(s, t) {
      assert RecordOk(s, t) && PlaceHolds(s, t);
      RestPlace(s, t);
    }
  }

  /**
   Deadlock freedom: when nothing can move, both queues are empty and every live coroutine that
   did not walk away without crt_exit is parked in an empty semaphore or waits for a watcher.
   */
  lemma StuckMeansWaiting(workers: nat, es: seq<Event>)
    requires workers >= 1 && Possible(Init(workers), es) && Stuck(After(Init(workers), es))
    ensures AllRest(After(Init(workers), es))
  {
    RunInv(workers, es);
    StuckWaits(After(Init(workers), es));
  }

  lemma RestPlace(s: State, t: Id)
    requires QueuesOk(s) && SemsOk(s) && WatchesOk(s) && Stuck(s)
    requires t in s.tasks && RecordOk(s, t) && PlaceHolds(s, t)
    requires s.todo == [] && s.doing == [] && s.manager.Waiting? && s.creating == {}
    requires forall w {:trigger s.workers[w]} :: 0 <= w < |s.workers| ==> s.workers[w].Idle?
    ensures AtRest(s, t)
  {
    match s.tasks[t].place
    case AtSem(k) => assert SemOk(s, k);
    case Watched => assert WatchOk(s, t); ArmedMayFire(s, t);
    case _ =>
  }

  /** Where nothing can move, exactly the coroutines that called crt_exit are freed, each once. */
  lemma StuckFrees(s: State, t: Id)
    requires Inv(s) && Stuck(s) && t < |s.logs|
    ensures s.logs[t].frees == 1 <==> EndsWith(s.logs[t], Exit)
  {
    Open(s);
    AllIdle(s);
    assert LogOk(s, t);
    if t in s.tasks { assert RecordOk(s, t) && PlaceHolds(s, t); }
  }

  lemma FreedAtTheEnd(workers: nat, es: seq<Event>, t: Id)
    requires workers >= 1 && Possible(Init(workers), es) && Stuck(After(Init(workers), es))
    requires t < |After(Init(workers), es).logs|
    ensures var l := After(Init(workers), es).logs[t]; l.frees == 1 <==> EndsWith(l, Exit)
  {
    RunInv(workers, es);
    StuckFrees(After(Init(workers), es), t);
  }
}
