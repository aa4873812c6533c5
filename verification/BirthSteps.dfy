/** Steps that allocate or free a task record keep the invariant. */
module BirthSteps {
  import opened Actions
  import opened Scheduler
  import opened Seqs
  import opened Invariant
  import opened Frames
  import opened ManagerSteps

  /** From s to s' a new record appears, known to nobody but its creator. */
  predicate Born(s: State, s': State, external: bool) {
    var u := |s.logs|;
    && u !in s.tasks
    && s'.tasks == s.tasks[u := NewTask(external)] && s'.logs == s.logs + [EmptyLog]
    && s'.workers == s.workers && s'.watch == s.watch && s'.sems == s.sems
    && s'.creating == (if external then s.creating + {u} else s.creating)
    && (if external then s'.manager == s.manager
        else
          && s.manager.Running? && s.manager.at == User && s'.manager == Running(s.manager.t, BornPush(u))
          && s.manager.t in s.tasks && s.tasks[s.manager.t].place.AtManager?)
    && (s.manager.Running? ==> s.manager.t in s.tasks)
  }

  lemma BornRecords(s: State, s': State, external: bool)
    requires RecordsOk(s) && LogsOk(s) && Born(s, s', external)
    ensures RecordsOk(s') && LogsOk(s')
  {
    forall t | t in s'.tasks ensures RecordOk(s', t) {
      if t in s.tasks { assert RecordOk(s, t); }
    }
    forall t | 0 <= t < |s'.logs| ensures LogOk(s', t) {
      if t < |s.logs| { assert LogOk(s, t); }
    }
  }

  lemma BornHolders(s: State, s': State, external: bool)
    requires WorkersOk(s) && WatchesOk(s) && CreatingOk(s) && Born(s, s', external)
    ensures WorkersOk(s') && WatchesOk(s') && CreatingOk(s')
  {
    forall w | 0 <= w < |s'.workers| ensures WorkerOk(s', w) { assert WorkerOk(s, w); }
    forall t | t in s'.watch ensures WatchOk(s', t) { assert WatchOk(s, t); }
  }

  lemma BornPlaces(s: State, s': State, external: bool)
    requires PlacesOk(s) && SemsOk(s) && Born(s, s', external)
    ensures PlacesOk(s') && SemsOk(s')
  {
    forall t | t in s'.tasks ensures PlaceHolds(s', t) && WaiterKnown(s', t) {
      if t in s.tasks { assert PlaceHolds(s, t) && WaiterKnown(s, t); }
    }
    forall n | n in s'.sems ensures SemOk(s', n) { assert SemOk(s, n); }
  }

  lemma BornStep(s: State, s': State, external: bool)
    requires EachOk(s) && Born(s, s', external)
    ensures EachOk(s')
  {
    OpenEach(s);
    BornRecords(s, s', external);
    BornHolders(s, s', external);
    BornPlaces(s, s', external);
    CloseEach(s');
  }

  lemma CountBorn(cid: nat, ran: nat, n: nat)
    requires cid == (ran + n) % TWO_TO_THE_64
    ensures Inc64(cid) == (ran + (n + 1)) % TWO_TO_THE_64
  {
  }

  lemma CountFreed(cid: nat, ran: nat, n: nat)
    requires n > 0 && cid == (ran + n) % TWO_TO_THE_64
    ensures cid == (Inc64(ran) + (n - 1)) % TWO_TO_THE_64 && Inc64(ran) < TWO_TO_THE_64
  {
  }

  // ----- another thread in crt_create -----

  lemma BeginEach(s: State)
    requires Inv(s)
    ensures EachOk(BeginStep(s))
  {
    Open(s);
    FreshNumber(s);
    BornStep(s, BeginStep(s), true);
  }

  lemma BeginCore(s: State)
    requires Inv(s)
    ensures CoreOk(BeginStep(s))
  {
    FreshNumber(s);
    var s' := BeginStep(s);
    assert ManagerOk(s') by {
      OneManager(s);
      ManagerSame(s, s');
    }
    assert QueuesOk(s') by {
      BothQueues(s);
      QueuesAside(s, s', |s.logs|);
    }
    assert Tallies(s') by {
      AllTallies(s);
      CountBorn(s.cid, s.ran, |s.tasks|);
    }
    CloseCore(s');
  }

  lemma BeginPushEach(s: State, t: Id)
    requires Inv(s) && BeginPushEnabled(s, t)
    ensures EachOk(BeginPushStep(s, t))
  {
    Open(s);
    var s' := BeginPushStep(s, t);
    assert RecordOk(s, t) && LogOk(s, t);
    forall u | u in s'.tasks ensures RecordOk(s', u) { assert RecordOk(s, u); }
    forall u | 0 <= u < |s'.logs| ensures LogOk(s', u) { assert LogOk(s, u); }
    BeginPushHolders(s, t);
    BeginPushSems(s, t);
    CloseEach(s');
  }

  lemma BeginPushHolders(s: State, t: Id)
    requires WorkersOk(s) && WatchesOk(s) && CreatingOk(s) && PlacesOk(s) && BeginPushEnabled(s, t)
    ensures var s' := BeginPushStep(s, t); WorkersOk(s') && WatchesOk(s') && CreatingOk(s') && PlacesOk(s')
  {
    var s' := BeginPushStep(s, t);
    forall w | 0 <= w < |s'.workers| ensures WorkerOk(s', w) { assert WorkerOk(s, w); }
    forall u | u in s'.watch ensures WatchOk(s', u) { assert WatchOk(s, u); }
    forall u | u in s'.tasks ensures PlaceHolds(s', u) { assert PlaceHolds(s, u); }
  }

  lemma BeginPushSems(s: State, t: Id)
    requires SemsOk(s) && CreatingOk(s) && BeginPushEnabled(s, t) && RecordOk(s, t)
    ensures SemsOk(BeginPushStep(s, t))
  {
    var s' := BeginPushStep(s, t);
    NotWaiting(s, t);
    forall u | u in s'.tasks ensures WaiterKnown(s', u) { assert WaiterKnown(s, u); }
    forall n | n in s'.sems ensures SemOk(s', n) { assert SemOk(s, n); }
  }

  lemma BeginPushManager(s: State, t: Id)
    requires ManagerOk(s) && BeginPushEnabled(s, t) && s.tasks[t].place == Unborn(true)
    ensures ManagerOk(BeginPushStep(s, t))
  {
  }

  lemma BeginPushTallies(s: State, t: Id)
    requires Tallies(s) && BeginPushEnabled(s, t)
    ensures Tallies(BeginPushStep(s, t))
  {
  }

  lemma BeginPushCore(s: State, t: Id)
    requires Inv(s) && BeginPushEnabled(s, t)
    ensures CoreOk(BeginPushStep(s, t))
  {
    var s' := BeginPushStep(s, t);
    OpenCore(s);
    OneCreating(s, t);
    BeginPushManager(s, t);
    BeginPushTallies(s, t);
    TodoGrows(s, s', t);
    CloseCore(s');
  }

  lemma BeginPostCore(s: State)
    requires Inv(s) && s.unposted > 0
    ensures CoreOk(Step(s, BeginPost))
  {
    OpenCore(s);
    CloseCore(Step(s, BeginPost));
  }

  lemma BeginPostRecords(s: State)
    requires RecordsOk(s) && LogsOk(s) && SemsOk(s) && s.unposted > 0
    ensures var s' := Step(s, BeginPost); RecordsOk(s') && LogsOk(s') && SemsOk(s')
  {
    var s' := Step(s, BeginPost);
    forall t | t in s'.tasks ensures RecordOk(s', t) && WaiterKnown(s', t) { assert RecordOk(s, t) && WaiterKnown(s, t); }
    forall t | 0 <= t < |s'.logs| ensures LogOk(s', t) { assert LogOk(s, t); }
    forall n | n in s'.sems ensures SemOk(s', n) { assert SemOk(s, n); }
  }

  lemma BeginPostHolders(s: State)
    requires WorkersOk(s) && WatchesOk(s) && CreatingOk(s) && PlacesOk(s) && s.unposted > 0
    ensures var s' := Step(s, BeginPost); WorkersOk(s') && WatchesOk(s') && CreatingOk(s') && PlacesOk(s')
  {
    var s' := Step(s, BeginPost);
    forall w | 0 <= w < |s'.workers| ensures WorkerOk(s', w) { assert WorkerOk(s, w); }
    forall t | t in s'.watch ensures WatchOk(s', t) { assert WatchOk(s, t); }
    forall t | t in s'.tasks ensures PlaceHolds(s', t) { assert PlaceHolds(s, t); }
  }

  /** Nothing the single records depend on changes when a thread posts its unit. */
  lemma BeginPostEach(s: State)
    requires Inv(s) && s.unposted > 0
    ensures EachOk(Step(s, BeginPost))
  {
    OpenEach(s);
    BeginPostRecords(s);
    BeginPostHolders(s);
    CloseEach(Step(s, BeginPost));
  }

  // ----- freeing a finished coroutine -----

  predicate Freeing(s: State, t: Id) {
    s.manager == Dispatch(t) && Live(s, t) && s.tasks[t].action.FinishedCoroutine? && s.curr == t
    && s.tasks[t].place.AtManager? && RecordOk(s, t) && LogOk(s, t)
  }

  lemma FreeRecords(s: State, t: Id)
    requires RecordsOk(s) && LogsOk(s) && Freeing(s, t)
    ensures RecordsOk(MainStep(s)) && LogsOk(MainStep(s))
  {
    var s' := MainStep(s);
    forall u | u in s'.tasks ensures RecordOk(s', u) { assert RecordOk(s, u); }
    forall u | 0 <= u < |s'.logs| ensures LogOk(s', u) { assert LogOk(s, u); }
  }

  lemma FreeHolders(s: State, t: Id)
    requires WorkersOk(s) && WatchesOk(s) && CreatingOk(s) && PlacesOk(s) && Freeing(s, t)
    ensures var s' := MainStep(s); WorkersOk(s') && WatchesOk(s') && CreatingOk(s') && PlacesOk(s')
  {
    var s' := MainStep(s);
    forall w | 0 <= w < |s'.workers| ensures WorkerOk(s', w) { assert WorkerOk(s, w); }
    forall u | u in s'.watch ensures WatchOk(s', u) { assert WatchOk(s, u); }
    forall u | u in s'.tasks ensures PlaceHolds(s', u) { assert PlaceHolds(s, u); }
  }

  lemma FreeSems(s: State, t: Id)
    requires SemsOk(s) && Freeing(s, t)
    ensures SemsOk(MainStep(s))
  {
    var s' := MainStep(s);
    forall u | u in s'.tasks ensures WaiterKnown(s', u) { assert WaiterKnown(s, u); }
    forall n | n in s'.sems ensures SemOk(s', n) { assert SemOk(s, n); }
  }

  lemma FreeEach(s: State, t: Id)
    requires Inv(s) && Freeing(s, t)
    ensures EachOk(MainStep(s))
  {
    Open(s);
    FreeRecords(s, t);
    FreeHolders(s, t);
    FreeSems(s, t);
    CloseEach(MainStep(s));
  }

  lemma FreeCounts(s: State, t: Id)
    requires CountsOk(s) && s.manager == Dispatch(t) && Live(s, t)
    requires s.tasks[t].action.FinishedCoroutine? && s.curr == t
    ensures CountsOk(MainStep(s))
  {
    CountFreed(s.cid, s.ran, |s.tasks|);
    assert s.tasks.Keys == MainStep(s).tasks.Keys + {t};
  }

  lemma FreeCore(s: State, t: Id)
    requires Inv(s) && Freeing(s, t)
    ensures CoreOk(MainStep(s))
  {
    OpenCore(s);
    var s' := MainStep(s);
    QueueKept(s.todo, s.tasks, s'.tasks, InTodo);
    QueueKept(s.doing, s.tasks, s'.tasks, InDoing);
    FreeCounts(s, t);
    CloseCore(MainStep(s));
  }
}
