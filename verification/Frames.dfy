/** What a step keeps for every task record it does not touch. */
module Frames {
  import opened Actions
  import opened Scheduler
  import opened Seqs
  import opened Invariant

  /** From s to s' no record is added or removed, and only those in X are touched. */
  predicate Only(s: State, s': State, X: set<Id>) {
    && s'.tasks.Keys == s.tasks.Keys && |s'.logs| == |s.logs|
    && (forall u :: u in s.tasks && u !in X ==> s'.tasks[u] == s.tasks[u])
    && (forall u {:trigger s'.logs[u]} {:trigger s.logs[u]} :: 0 <= u < |s.logs| && u !in X ==> s'.logs[u] == s.logs[u])
    && ManagedIn(s.manager, X) && ManagedIn(s'.manager, X)
  }

  /** The record the manager works on, if any, is in X. */
  predicate ManagedIn(m: Manager, X: set<Id>) {
    match m
    case Dispatch(t) => t in X
    case Check(t) => t in X
    case Running(t, _) => t in X
    case _ => true
  }

  lemma RecordsKept(s: State, s': State, X: set<Id>)
    requires Only(s, s', X) && RecordsOk(s)
    requires forall x :: x in X && x in s.tasks ==> RecordOk(s', x)
    ensures RecordsOk(s')
  {
    forall u | u in s'.tasks ensures RecordOk(s', u) {
      if u !in X { assert RecordOk(s, u); }
    }
  }

  lemma LogsKept(s: State, s': State, X: set<Id>)
    requires Only(s, s', X) && LogsOk(s)
    requires forall x :: x in X && x < |s.logs| ==> LogOk(s', x)
    ensures LogsOk(s')
  {
    forall u | 0 <= u < |s'.logs| ensures LogOk(s', u) {
      if u !in X { assert LogOk(s, u); }
    }
  }

  /** All workers but those in W are as before, and own nothing in X. */
  lemma WorkersKept(s: State, s': State, X: set<Id>, W: set<nat>)
    requires Only(s, s', X) && WorkersOk(s)
    requires |s'.workers| == |s.workers|
    requires forall w {:trigger s'.workers[w]} :: 0 <= w < |s.workers| && w !in W ==> s'.workers[w] == s.workers[w]
    requires forall x :: x in X && x in s.tasks && s.tasks[x].place.AtWorker? ==> s.tasks[x].place.w in W
    requires forall w :: w in W && w < |s.workers| ==> WorkerOk(s', w)
    ensures WorkersOk(s')
  {
    forall w | 0 <= w < |s'.workers| ensures WorkerOk(s', w) {
      if w !in W { assert WorkerOk(s, w); }
    }
  }

  /** Watchers of records outside X are as before. */
  lemma WatchesKept(s: State, s': State, X: set<Id>)
    requires Only(s, s', X) && WatchesOk(s) && |s'.workers| == |s.workers|
    requires forall u :: u in s'.watch && u !in X ==> u in s.watch && s'.watch[u] == s.watch[u]
    requires forall x :: x in X && x in s'.watch ==> WatchOk(s', x)
    ensures WatchesOk(s')
  {
    forall u | u in s'.watch ensures WatchOk(s', u) {
      if u !in X { assert WatchOk(s, u); }
    }
  }

  lemma CreatingKept(s: State, s': State, X: set<Id>)
    requires Only(s, s', X) && CreatingOk(s)
    requires s'.creating <= s.creating
    requires forall x :: x in X && x in s'.creating ==> x in s'.tasks && s'.tasks[x].place == Unborn(true)
    ensures CreatingOk(s')
  {
  }

  /** Holders of records outside X still hold them. */
  predicate HoldersKept(s: State, s': State, X: set<Id>) {
    && |s'.workers| == |s.workers|
    && (forall w {:trigger s'.workers[w]} :: 0 <= w < |s.workers| ==>
          s'.workers[w] == s.workers[w] || Owned(s.workers[w]).None? || Owned(s.workers[w]).value in X)
    && (forall u :: u in s.watch && u !in X ==> u in s'.watch)
    && (forall u :: u in s.creating && u !in X ==> u in s'.creating)
    && (forall n :: n in s.sems ==>
          && n in s'.sems
          && (s'.sems[n].waiter == s.sems[n].waiter || s.sems[n].waiter.None? || s.sems[n].waiter.value in X))
    && (s.manager.Running? && s.manager.at.BornPush? && s.manager.at.child !in X ==> RunsAt(s'.manager, s.manager.at))
  }

  lemma PlacesKept(s: State, s': State, X: set<Id>)
    requires Only(s, s', X) && PlacesOk(s) && HoldersKept(s, s', X)
    requires forall x :: x in X && x in s.tasks ==> PlaceHolds(s', x)
    ensures PlacesOk(s')
  {
    forall u | u in s'.tasks ensures PlaceHolds(s', u) {
      if u !in X {
        assert PlaceHolds(s, u);
        if s.tasks[u].place.AtWorker? { assert s'.workers[s.tasks[u].place.w] == s.workers[s.tasks[u].place.w]; }
      }
    }
  }

  /** Semaphores outside N are as before, and no record in X waits for one of them. */
  predicate SemsOutside(s: State, s': State, X: set<Id>, N: set<SemId>) {
    && s.sems.Keys <= s'.sems.Keys <= s.sems.Keys + N
    && (forall n :: n in s.sems && n !in N ==>
          && s'.sems[n] == s.sems[n]
          && (s.sems[n].waiter.Some? ==> s.sems[n].waiter.value !in X)
          && IsWaking(s'.manager, n) == IsWaking(s.manager, n))
    && (forall n :: n in s.sems && n in N && s.sems[n].waiter.Some? ==>
          s'.sems[n].waiter == s.sems[n].waiter || s.sems[n].waiter.value in X)
  }

  lemma SemsKept(s: State, s': State, X: set<Id>, N: set<SemId>)
    requires Only(s, s', X) && SemsOk(s) && SemsOutside(s, s', X, N)
    requires forall n :: n in N && n in s'.sems ==> SemOk(s', n)
    requires forall x :: x in X && x in s.tasks ==> WaiterKnown(s', x)
    ensures SemsOk(s')
  {
    forall n | n in s'.sems ensures SemOk(s', n) {
      if n !in N { assert SemOk(s, n); }
    }
    forall u | u in s'.tasks ensures WaiterKnown(s', u) {
      if u !in X { assert WaiterKnown(s, u); }
    }
  }

  // ----- queues -----

  lemma QueueKept(q: seq<Id>, tasks: map<Id, Task>, tasks': map<Id, Task>, place: Where)
    requires QueueOk(q, tasks, place)
    requires forall t :: (t in tasks && tasks[t].place == place) <==> (t in tasks' && tasks'[t].place == place)
    ensures QueueOk(q, tasks', place)
  {
  }

  lemma QueueAppended(q: seq<Id>, tasks: map<Id, Task>, t: Id, k: Task)
    requires t in tasks && tasks[t].place != k.place
    requires QueueOk(q, tasks, k.place)
    ensures t !in q && QueueOk(q + [t], tasks[t := k], k.place)
  {
  }

  lemma QueuePrepended(q: seq<Id>, tasks: map<Id, Task>, t: Id, k: Task)
    requires t in tasks && tasks[t].place != k.place
    requires QueueOk(q, tasks, k.place)
    ensures t !in q && QueueOk([t] + q, tasks[t := k], k.place)
  {
    forall u | u in tasks[t := k] && tasks[t := k][u].place == k.place ensures u in [t] + q {
      if u != t { assert u in q; }
    }
  }

  lemma QueueShifted(q: seq<Id>, tasks: map<Id, Task>, place: Where, k: Task)
    requires q != [] && QueueOk(q, tasks, place) && k.place != place
    ensures QueueOk(q[1..], tasks[q[0] := k], place)
  {
    assert q == [q[0]] + q[1..];
  }

  predicate InQueue(p: Where) { p.InTodo? || p.InDoing? }

  /** Neither queue changes, nor which records are in them. */
  lemma QueuesAside(s: State, s': State, t: Id)
    requires QueuesOk(s) && s'.todo == s.todo && s'.doing == s.doing
    requires t in s'.tasks && s'.tasks == s.tasks[t := s'.tasks[t]]
    requires t in s.tasks && InQueue(s.tasks[t].place) ==> s'.tasks[t].place == s.tasks[t].place
    requires InQueue(s'.tasks[t].place) ==> t in s.tasks && s.tasks[t].place == s'.tasks[t].place
    ensures QueuesOk(s')
  {
    QueueKept(s.todo, s.tasks, s'.tasks, InTodo);
    QueueKept(s.doing, s.tasks, s'.tasks, InDoing);
  }

  /** A record that was in neither queue enters todo_queue, at either end. */
  lemma TodoGrows(s: State, s': State, t: Id)
    requires QueuesOk(s) && (s'.todo == s.todo + [t] || s'.todo == [t] + s.todo) && s'.doing == s.doing
    requires t in s.tasks && !InQueue(s.tasks[t].place)
    requires t in s'.tasks && s'.tasks == s.tasks[t := s'.tasks[t]] && s'.tasks[t].place == InTodo
    ensures QueuesOk(s')
  {
    QueueAppended(s.todo, s.tasks, t, s'.tasks[t]);
    QueuePrepended(s.todo, s.tasks, t, s'.tasks[t]);
    QueueKept(s.doing, s.tasks, s'.tasks, InDoing);
  }

  /** A record that was in neither queue enters doing_queue. */
  lemma DoingGrows(s: State, s': State, t: Id)
    requires QueuesOk(s) && s'.todo == s.todo && s'.doing == s.doing + [t]
    requires t in s.tasks && !InQueue(s.tasks[t].place)
    requires t in s'.tasks && s'.tasks == s.tasks[t := s'.tasks[t]] && s'.tasks[t].place == InDoing
    ensures QueuesOk(s')
  {
    QueueKept(s.todo, s.tasks, s'.tasks, InTodo);
    QueueAppended(s.doing, s.tasks, t, s'.tasks[t]);
  }

  /** The record at the head of todo_queue leaves it. */
  lemma TodoShrinks(s: State, s': State, t: Id)
    requires QueuesOk(s) && s.todo != [] && s.todo[0] == t && s'.todo == s.todo[1..] && s'.doing == s.doing
    requires t in s'.tasks && s'.tasks == s.tasks[t := s'.tasks[t]] && !InQueue(s'.tasks[t].place)
    ensures QueuesOk(s')
  {
    QueueShifted(s.todo, s.tasks, InTodo, s'.tasks[t]);
    QueueKept(s.doing, s.tasks, s'.tasks, InDoing);
  }

  // ----- the manager -----

  /** The manager thread does not depend on queues, workers and counters, nor on new records. */
  lemma ManagerSame(s: State, s': State)
    requires ManagerOk(s) && s'.manager == s.manager && s'.curr == s.curr && s'.sems == s.sems
    requires |s.logs| <= |s'.logs| && forall t {:trigger s'.logs[t]} :: 0 <= t < |s.logs| ==> s'.logs[t] == s.logs[t]
    requires forall t :: t in s.tasks && t < |s.logs| ==> t in s'.tasks && s'.tasks[t] == s.tasks[t]
    ensures ManagerOk(s')
  {
  }

  // ----- two shapes of step -----

  predicate SameHolders(s: State, s': State) {
    s'.workers == s.workers && s'.watch == s.watch && s'.creating == s.creating
  }

  /** No crt_ call has announced work on another record. */
  predicate NoErrand(m: Manager) { m.Running? ==> !m.at.BornPush? && !m.at.WakePush? }

  /** A step that touches record c, held by the manager or the todo queue, and no semaphore. */
  predicate Local(s: State, s': State, c: Id) {
    && Live(s, c) && Only(s, s', {c}) && SameHolders(s, s') && s'.sems == s.sems
    && (s.tasks[c].place.AtManager? || s.tasks[c].place.InTodo?)
    && NoErrand(s.manager) && NoErrand(s'.manager)
    && !s'.tasks[c].place.Unborn? && !s'.tasks[c].place.AtSem?
    && RecordOk(s', c) && LogOk(s', c) && PlaceHolds(s', c) && WaiterKnown(s', c)
    && (forall n :: n in s.sems && s.sems[n].waiter == Some(c) ==> SemOk(s', n))
  }

  lemma LocalHolders(s: State, s': State, c: Id)
    requires EachOk(s) && Local(s, s', c)
    ensures WorkersOk(s') && WatchesOk(s') && CreatingOk(s') && PlacesOk(s')
  {
    OpenEach(s);
    WorkersKept(s, s', {c}, {});
    NotWatched(s, c);
    WatchesKept(s, s', {c});
    assert c !in s.creating;
    CreatingKept(s, s', {c});
    PlacesKept(s, s', {c});
  }

  lemma LocalStep(s: State, s': State, c: Id)
    requires EachOk(s) && Local(s, s', c)
    ensures EachOk(s')
  {
    OpenEach(s);
    var N := set n | n in s.sems && s.sems[n].waiter == Some(c);
    RecordsKept(s, s', {c});
    LogsKept(s, s', {c});
    SemsKept(s, s', {c}, N);
    LocalHolders(s, s', c);
    CloseEach(s');
  }

  /** A step that touches the records X and the semaphores N, and no worker or watcher. */
  predicate Touch(s: State, s': State, X: set<Id>, N: set<SemId>) {
    && Only(s, s', X) && SameHolders(s, s') && HoldersKept(s, s', X) && SemsOutside(s, s', X, N)
    && (forall x :: x in X ==> x in s.tasks && !HeldElsewhere(s.tasks[x].place) && TouchedOk(s', x))
    && (forall n :: n in N && n in s'.sems ==> SemOk(s', n))
  }

  predicate HeldElsewhere(p: Where) { p.AtWorker? || p.Watched? || p == Unborn(true) }

  predicate TouchedOk(s: State, x: Id) {
    Live(s, x) && RecordOk(s, x) && LogOk(s, x) && PlaceHolds(s, x) && WaiterKnown(s, x)
  }

  lemma TouchHolders(s: State, s': State, X: set<Id>, N: set<SemId>)
    requires EachOk(s) && Touch(s, s', X, N)
    ensures WorkersOk(s') && WatchesOk(s') && CreatingOk(s') && PlacesOk(s')
  {
    OpenEach(s);
    WorkersKept(s, s', X, {});
    assert forall x :: x in X ==> x !in s.watch by {
      forall x | x in X ensures x !in s.watch { NotWatched(s, x); }
    }
    WatchesKept(s, s', X);
    CreatingKept(s, s', X);
    PlacesKept(s, s', X);
  }

  lemma TouchStep(s: State, s': State, X: set<Id>, N: set<SemId>)
    requires EachOk(s) && Touch(s, s', X, N)
    ensures EachOk(s')
  {
    OpenEach(s);
    RecordsKept(s, s', X);
    LogsKept(s, s', X);
    SemsKept(s, s', X, N);
    TouchHolders(s, s', X, N);
    CloseEach(s');
  }

  /** A step of the manager thread that leaves every continuation as it is. */
  predicate Handover(s: State, s': State, c: Id) {
    && Only(s, s', {c}) && SameHolders(s, s') && s'.sems == s.sems && s'.logs == s.logs
    && NoErrand(s.manager) && NoErrand(s'.manager)
    && (c in s.tasks ==>
          && !s.tasks[c].place.AtManager? && !s.tasks[c].place.Unborn?
          && s'.tasks[c] == s.tasks[c].(ctx := s'.tasks[c].ctx)
          && Cont(s'.tasks[c], RunPoint(s'.manager, c)) == Cont(s.tasks[c], RunPoint(s.manager, c))
          && !(s.manager.Running? && s.manager.at.SemTest?)
          && RecordOk(s', c))
  }

  lemma HandoverWorkers(s: State, s': State, c: Id)
    requires WorkersOk(s) && WatchesOk(s) && CreatingOk(s) && Handover(s, s', c)
    ensures WorkersOk(s') && WatchesOk(s') && CreatingOk(s')
  {
    forall w | 0 <= w < |s'.workers| ensures WorkerOk(s', w) { assert WorkerOk(s, w); }
    forall u | u in s'.watch ensures WatchOk(s', u) { assert WatchOk(s, u); }
  }

  lemma HandoverPlaces(s: State, s': State, c: Id)
    requires PlacesOk(s) && SemsOk(s) && Handover(s, s', c)
    ensures PlacesOk(s')
  {
    forall u | u in s'.tasks ensures PlaceHolds(s', u) { assert PlaceHolds(s, u); }
  }

  lemma HandoverSems(s: State, s': State, c: Id)
    requires SemsOk(s) && Handover(s, s', c)
    ensures SemsOk(s')
  {
    forall u | u in s'.tasks ensures WaiterKnown(s', u) { assert WaiterKnown(s, u); }
    forall n | n in s'.sems ensures SemOk(s', n) { assert SemOk(s, n); }
  }

  lemma HandoverStep(s: State, s': State, c: Id)
    requires EachOk(s) && Handover(s, s', c)
    ensures EachOk(s')
  {
    OpenEach(s);
    if c < |s.logs| { assert LogOk(s, c); }
    RecordsKept(s, s', {c});
    LogsKept(s, s', {c});
    HandoverWorkers(s, s', c);
    HandoverPlaces(s, s', c);
    HandoverSems(s, s', c);
    CloseEach(s');
  }

  /** What the invariant says of one record. */
  lemma Holding(s: State, t: Id)
    requires EachOk(s) && Live(s, t)
    ensures TouchedOk(s, t)
  {
    OpenEach(s);
    assert RecordOk(s, t) && LogOk(s, t) && PlaceHolds(s, t) && WaiterKnown(s, t);
  }
}
