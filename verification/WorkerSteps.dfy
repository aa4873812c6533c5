/** Every step of a background worker keeps the invariant. */
module WorkerSteps {
  import opened Actions
  import opened Scheduler
  import opened Seqs
  import opened Invariant
  import opened Frames
  import opened ManagerSteps

  /** Worker w moves to another phase that owns no more than before; nothing else is touched. */
  lemma PhaseEach(s: State, s': State, w: nat)
    requires EachOk(s) && w < |s.workers| && w < |s'.workers|
    requires s' == s.(workers := s.workers[w := s'.workers[w]], pipes := s'.pipes, sem := s'.sem)
    requires Owned(s'.workers[w]) == Owned(s.workers[w]) && WorkerOk(s', w)
    ensures EachOk(s')
  {
    OpenEach(s);
    forall t | t in s'.tasks ensures RecordOk(s', t) && PlaceHolds(s', t) && WaiterKnown(s', t) {
      assert RecordOk(s, t) && PlaceHolds(s, t) && WaiterKnown(s, t);
    }
    forall t | 0 <= t < |s'.logs| ensures LogOk(s', t) { assert LogOk(s, t); }
    forall v | 0 <= v < |s'.workers| ensures WorkerOk(s', v) { assert WorkerOk(s, v); }
    forall t | t in s'.watch ensures WatchOk(s', t) { assert WatchOk(s, t); }
    forall n | n in s'.sems ensures SemOk(s', n) { assert SemOk(s, n); }
    CloseEach(s');
  }

  /** The phases of one worker changed: what the two counts of phases become. */
  lemma PhaseCounts(s: State, s': State, w: nat)
    requires w < |s.workers| && w < |s'.workers| && s'.workers == s.workers[w := s'.workers[w]]
    ensures Sum(Map(PostCount, s'.workers)) + PostCount(s.workers[w])
         == Sum(Map(PostCount, s.workers)) + PostCount(s'.workers[w])
    ensures Sum(Map(TokenCount, s'.workers)) + TokenCount(s.workers[w])
         == Sum(Map(TokenCount, s.workers)) + TokenCount(s'.workers[w])
  {
    var a := s'.workers[w];
    assert Map(PostCount, s'.workers) == Map(PostCount, s.workers)[w := PostCount(a)];
    assert Map(TokenCount, s'.workers) == Map(TokenCount, s.workers)[w := TokenCount(a)];
    SumUpdate(Map(PostCount, s.workers), w, PostCount(a));
    SumUpdate(Map(TokenCount, s.workers), w, TokenCount(a));
  }

  lemma ReadEach(s: State, w: nat)
    requires Inv(s) && ReadEnabled(s, w)
    ensures EachOk(ReadStep(s, w))
  {
    Open(s);
    PhaseEach(s, ReadStep(s, w), w);
  }

  lemma ReadCore(s: State, w: nat)
    requires Inv(s) && ReadEnabled(s, w)
    ensures CoreOk(ReadStep(s, w))
  {
    OpenCore(s);
    var s' := ReadStep(s, w);
    PhaseCounts(s, s', w);
    SumUpdate(s.pipes, w, s.pipes[w] - 1);
    CloseCore(ReadStep(s, w));
  }

  /** Back from do_task or from sem_post. */
  predicate Leaving(s: State, w: nat) {
    w < |s.workers| && WorkerOk(s, w) && (s.workers[w].Returned? || s.workers[w].Posting?)
  }

  lemma LeaveEach(s: State, w: nat, raw: Ret, immediate: bool)
    requires Inv(s) && Leaving(s, w)
    ensures EachOk(WorkStep(s, w, raw, immediate))
  {
    Open(s);
    PhaseEach(s, WorkStep(s, w, raw, immediate), w);
  }

  lemma LeaveTallies(s: State, w: nat, raw: Ret, immediate: bool)
    requires Tallies(s) && Leaving(s, w)
    ensures Tallies(WorkStep(s, w, raw, immediate))
  {
    PhaseCounts(s, WorkStep(s, w, raw, immediate), w);
  }

  lemma LeaveCore(s: State, w: nat, raw: Ret, immediate: bool)
    requires Inv(s) && Leaving(s, w)
    ensures CoreOk(WorkStep(s, w, raw, immediate))
  {
    var s' := WorkStep(s, w, raw, immediate);
    OpenCore(s);
    ManagerSame(s, s');
    LeaveTallies(s, w, raw, immediate);
    CloseCore(s');
  }

  // ----- steps that touch one record -----

  /** Worker w touches record t, which the doing queue, w itself or its watchers hold. */
  predicate WorkerTouch(s: State, s': State, w: nat, t: Id) {
    && Live(s, t) && t in s'.tasks && t < |s'.logs| && w < |s.workers| && w < |s'.workers|
    && s' == s.(tasks := s.tasks[t := s'.tasks[t]], logs := s.logs[t := s'.logs[t]],
                workers := s.workers[w := s'.workers[w]], watch := s'.watch, todo := s'.todo, doing := s'.doing)
    && (s.tasks[t].place.InDoing? || s.tasks[t].place == AtWorker(w) || s.tasks[t].place.Watched?)
    && (Owned(s.workers[w]).None? || Owned(s.workers[w]).value == t)
    && RunOrNot(s.manager, t)
    && (forall u :: u in s.watch && u != t ==> u in s'.watch && s'.watch[u] == s.watch[u])
    && (forall u :: u in s'.watch && u != t ==> u in s.watch)
    && TouchedOk(s', t) && WorkerOk(s', w) && (t in s'.watch ==> WatchOk(s', t))
    && Cont(s.tasks[t], RunPoint(s.manager, t)) == Some(GetRet)
    && !s'.tasks[t].place.AtManager? && !s'.tasks[t].place.AtSem?
  }

  /** The manager is busy with another record, or has published this one. */
  predicate RunOrNot(m: Manager, t: Id) {
    m.Running? && m.t == t ==> Published(m.at)
  }

  lemma WorkerTouchHolders(s: State, s': State, w: nat, t: Id)
    requires WorkersOk(s) && WatchesOk(s) && CreatingOk(s) && PlacesOk(s) && WorkerTouch(s, s', w, t)
    ensures WorkersOk(s') && WatchesOk(s') && CreatingOk(s') && PlacesOk(s')
  {
    forall v | 0 <= v < |s'.workers| ensures WorkerOk(s', v) { assert WorkerOk(s, v); }
    forall u | u in s'.watch ensures WatchOk(s', u) { if u != t { assert WatchOk(s, u); } }
    forall u | u in s'.tasks ensures PlaceHolds(s', u) { if u != t { assert PlaceHolds(s, u); } }
  }

  lemma WorkerTouchRecords(s: State, s': State, w: nat, t: Id)
    requires RecordsOk(s) && LogsOk(s) && SemsOk(s) && WorkerTouch(s, s', w, t)
    ensures RecordsOk(s') && LogsOk(s') && SemsOk(s')
  {
    forall u | u in s'.tasks ensures RecordOk(s', u) { if u != t { assert RecordOk(s, u); } }
    forall u | 0 <= u < |s'.logs| ensures LogOk(s', u) { if u != t { assert LogOk(s, u); } }
    forall u | u in s'.tasks ensures WaiterKnown(s', u) { if u != t { assert WaiterKnown(s, u); } }
    NotWaiting(s, t);
    forall n | n in s'.sems ensures SemOk(s', n) { assert SemOk(s, n); }
  }

  lemma WorkerTouchStep(s: State, s': State, w: nat, t: Id)
    requires EachOk(s) && WorkerTouch(s, s', w, t)
    ensures EachOk(s')
  {
    OpenEach(s);
    WorkerTouchHolders(s, s', w, t);
    WorkerTouchRecords(s, s', w, t);
    CloseEach(s');
  }

  /** A record in a worker's hands is not the manager's, except for one still swapping out. */
  predicate Elsewhere(s: State, t: Id) {
    && Live(s, t) && RecordOk(s, t) && LogOk(s, t) && WaiterKnown(s, t) && RunOrNot(s.manager, t)
    && (s.manager.Running? && s.manager.at.BornPush? ==> s.manager.at.child != t)
    && (s.manager.Running? && s.manager.at.WakePush? ==> Waking(s, s.manager.at.sem))
  }

  lemma TakenElsewhere(s: State, t: Id)
    requires EachOk(s) && ManagerOk(s) && t in s.tasks
    requires s.tasks[t].place.InDoing? || s.tasks[t].place.AtWorker? || s.tasks[t].place.Watched?
    ensures Elsewhere(s, t) && PlaceHolds(s, t)
  {
    OpenEach(s);
    assert RecordOk(s, t) && LogOk(s, t) && WaiterKnown(s, t);
  }

  // ----- taking a request -----

  lemma TakeRequestTouch(s: State, w: nat, t: Id, raw: Ret, immediate: bool)
    requires w < |s.workers| && s.workers[w].Token? && s.doing != [] && t == s.doing[0]
    requires Elsewhere(s, t) && s.tasks[t].place.InDoing? && (t !in s.watch)
    ensures WorkerTouch(s, WorkStep(s, w, raw, immediate), w, t)
  {
  }

  lemma TakeRequestEach(s: State, w: nat, raw: Ret, immediate: bool)
    requires Inv(s) && w < |s.workers| && s.workers[w].Token?
    ensures s.doing != [] && EachOk(WorkStep(s, w, raw, immediate))
  {
    Open(s);
    RequestWaits(s, w);
    var t := s.doing[0];
    TakenElsewhere(s, t);
    NotWatched(s, t);
    TakeRequestTouch(s, w, t, raw, immediate);
    WorkerTouchStep(s, WorkStep(s, w, raw, immediate), w, t);
  }

  /** A worker that has read a token finds a request. */
  lemma RequestWaits(s: State, w: nat)
    requires TokensOk(s) && w < |s.workers| && s.workers[w].Token?
    ensures s.doing != []
  {
    SumAtLeast(Map(TokenCount, s.workers), w);
  }

  lemma TakeRequestQueues(s: State, w: nat, raw: Ret, immediate: bool)
    requires QueuesOk(s) && w < |s.workers| && s.workers[w].Token? && s.doing != [] && Live(s, s.doing[0])
    ensures QueuesOk(WorkStep(s, w, raw, immediate))
  {
    var s' := WorkStep(s, w, raw, immediate);
    QueueKept(s.todo, s.tasks, s'.tasks, InTodo);
    QueueShifted(s.doing, s.tasks, InDoing, s'.tasks[s.doing[0]]);
  }

  lemma TakeRequestTallies(s: State, w: nat, raw: Ret, immediate: bool)
    requires Tallies(s) && w < |s.workers| && s.workers[w].Token? && s.doing != [] && Live(s, s.doing[0])
    ensures Tallies(WorkStep(s, w, raw, immediate))
  {
    PhaseCounts(s, WorkStep(s, w, raw, immediate), w);
  }

  lemma TakeRequestCore(s: State, w: nat, raw: Ret, immediate: bool)
    requires Inv(s) && w < |s.workers| && s.workers[w].Token?
    ensures CoreOk(WorkStep(s, w, raw, immediate))
  {
    OpenCore(s);
    RequestWaits(s, w);
    OneRecord(s, s.doing[0]);
    TakeRequestQueues(s, w, raw, immediate);
    TakeRequestTallies(s, w, raw, immediate);
    CloseCore(WorkStep(s, w, raw, immediate));
  }

  // ----- running a handler -----

  /** A handler that finishes, now or from a callback, leaves an answered record. */
  lemma CompleteTouch(s: State, w: nat, t: Id, raw: Ret, next: Worker)
    requires w < |s.workers| && Owned(next) == Some(t) && !next.Exec?
    requires Owned(s.workers[w]).None? || Owned(s.workers[w]).value == t
    requires Elsewhere(s, t) && Pending(s.tasks[t], s.logs[t]) && t !in s.watch
    requires s.tasks[t].place == AtWorker(w) || s.tasks[t].place.Watched?
    ensures WorkerTouch(s, Complete(s, w, t, raw, next), w, t)
  {
  }

  lemma DoTaskTouch(s: State, w: nat, t: Id, raw: Ret, immediate: bool)
    requires w < |s.workers| && s.workers[w] == Exec(t) && WorkerOk(s, w)
    requires Elsewhere(s, t) && s.tasks[t].place == AtWorker(w) && t !in s.watch
    ensures WorkerTouch(s, WorkStep(s, w, raw, immediate), w, t)
  {
    if IsSynchronous(s.tasks[t].action) {
      CompleteTouch(s, w, t, raw, Returned(t, 0));
    } else if s.tasks[t].action.TimeoutConnect? && immediate {
      CompleteTouch(s, w, t, raw, Notify(t, true));
    }
  }

  lemma DoTaskEach(s: State, w: nat, t: Id, raw: Ret, immediate: bool)
    requires Inv(s) && w < |s.workers| && s.workers[w] == Exec(t)
    ensures EachOk(WorkStep(s, w, raw, immediate)) && WorkerTouch(s, WorkStep(s, w, raw, immediate), w, t)
  {
    Open(s);
    assert WorkerOk(s, w);
    TakenElsewhere(s, t);
    NotWatched(s, t);
    DoTaskTouch(s, w, t, raw, immediate);
    WorkerTouchStep(s, WorkStep(s, w, raw, immediate), w, t);
  }

  /** s' differs from s in worker w, record t and the watchers; w neither posts nor reads in between. */
  predicate Aside(s: State, s': State, w: nat, t: Id) {
    && Live(s, t) && t in s'.tasks && t < |s'.logs| && w < |s.workers| && w < |s'.workers|
    && s' == s.(tasks := s.tasks[t := s'.tasks[t]], logs := s.logs[t := s'.logs[t]],
                workers := s.workers[w := s'.workers[w]], watch := s'.watch)
    && (s.tasks[t].place.AtWorker? || s.tasks[t].place.Watched?)
    && (s'.tasks[t].place.AtWorker? || s'.tasks[t].place.Watched?)
    && !s'.tasks[t].action.FinishedCoroutine?
    && PostCount(s'.workers[w]) == PostCount(s.workers[w]) && TokenCount(s'.workers[w]) == TokenCount(s.workers[w])
  }

  lemma AsideTallies(s: State, s': State, w: nat, t: Id)
    requires Tallies(s) && Aside(s, s', w, t)
    ensures Tallies(s')
  {
    PhaseCounts(s, s', w);
  }

  /** The manager's view of a record in a worker's hands does not depend on what the worker does to it. */
  lemma AsideCore(s: State, s': State, w: nat, t: Id)
    requires CoreOk(s) && Aside(s, s', w, t)
    ensures CoreOk(s')
  {
    OpenCore(s);
    AsideTallies(s, s', w, t);
    QueuesAside(s, s', t);
    CloseCore(s');
  }

  lemma DoTaskCore(s: State, w: nat, t: Id, raw: Ret, immediate: bool)
    requires Inv(s) && w < |s.workers| && s.workers[w] == Exec(t)
    requires WorkerTouch(s, WorkStep(s, w, raw, immediate), w, t)
    ensures CoreOk(WorkStep(s, w, raw, immediate))
  {
    OneWorker(s, w);
    OneRecord(s, t);
    AsideCore(s, WorkStep(s, w, raw, immediate), w, t);
  }

  // ----- coroutine_notify_manager -----

  lemma NotifyTouch(s: State, w: nat, t: Id, inner: bool, raw: Ret, immediate: bool)
    requires w < |s.workers| && s.workers[w] == Notify(t, inner) && WorkerOk(s, w)
    requires Elsewhere(s, t) && s.tasks[t].place == AtWorker(w) && t !in s.watch
    ensures WorkerTouch(s, WorkStep(s, w, raw, immediate), w, t)
  {
  }

  lemma NotifyEach(s: State, w: nat, t: Id, inner: bool, raw: Ret, immediate: bool)
    requires Inv(s) && w < |s.workers| && s.workers[w] == Notify(t, inner)
    ensures EachOk(WorkStep(s, w, raw, immediate))
  {
    Open(s);
    assert WorkerOk(s, w);
    TakenElsewhere(s, t);
    NotWatched(s, t);
    NotifyTouch(s, w, t, inner, raw, immediate);
    WorkerTouchStep(s, WorkStep(s, w, raw, immediate), w, t);
  }

  lemma NotifyTallies(s: State, w: nat, t: Id, inner: bool, raw: Ret, immediate: bool)
    requires Tallies(s) && w < |s.workers| && s.workers[w] == Notify(t, inner) && Live(s, t)
    ensures Tallies(WorkStep(s, w, raw, immediate))
  {
    PhaseCounts(s, WorkStep(s, w, raw, immediate), w);
  }

  lemma NotifyCore(s: State, w: nat, t: Id, inner: bool, raw: Ret, immediate: bool)
    requires Inv(s) && w < |s.workers| && s.workers[w] == Notify(t, inner)
    ensures CoreOk(WorkStep(s, w, raw, immediate))
  {
    OpenCore(s);
    OneWorker(s, w);
    OneRecord(s, t);
    var s' := WorkStep(s, w, raw, immediate);
    NotifyTallies(s, w, t, inner, raw, immediate);
    TodoGrows(s, s', t);
    CloseCore(WorkStep(s, w, raw, immediate));
  }

  // ----- watcher callbacks -----

  /** The callback of a completed request leaves none of its watchers armed. */
  lemma FireTouch(s: State, w: nat, t: Id, timer: bool, raw: Ret)
    requires FireEnabled(s, w, t, timer, Some(raw)) && WatchOk(s, t) && Elsewhere(s, t)
    ensures t !in FireStep(s, w, t, timer, Some(raw)).watch
    ensures WorkerTouch(s, FireStep(s, w, t, timer, Some(raw)), w, t)
  {
  }

  lemma FireEach(s: State, w: nat, t: Id, timer: bool, raw: Ret)
    requires Inv(s) && FireEnabled(s, w, t, timer, Some(raw))
    ensures EachOk(FireStep(s, w, t, timer, Some(raw)))
  {
    Open(s);
    assert WatchOk(s, t);
    TakenElsewhere(s, t);
    FireTouch(s, w, t, timer, raw);
    WorkerTouchStep(s, FireStep(s, w, t, timer, Some(raw)), w, t);
  }

  lemma FireCore(s: State, w: nat, t: Id, timer: bool, raw: Ret)
    requires Inv(s) && FireEnabled(s, w, t, timer, Some(raw))
    ensures CoreOk(FireStep(s, w, t, timer, Some(raw)))
  {
    OneWatch(s, t);
    OneRecord(s, t);
    AsideCore(s, FireStep(s, w, t, timer, Some(raw)), w, t);
  }
}
