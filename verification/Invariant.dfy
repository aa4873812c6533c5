/** The invariant of the scheduler, part by part. */
module Invariant {
  import opened Actions
  import opened Scheduler
  import opened Seqs

  // ----- one task record and the history of its coroutine -----

  /** The point at which the manager executes coroutine `t`, if it does. */
  function RunPoint(m: Manager, t: Id): Option<Point> {
    if m.Running? && m.t == t then Some(m.at) else None
  }

  /** Where control will be once the call that suspends has swapped out. */
  function Target(p: Point): Point {
    match p
    case ReqWrite => GetRet
    case YieldPost => User
    case Swap(q) => q
    case _ => p
  }

  /** The continuation of a coroutine: its saved context, or the one it is about to save. */
  function Cont(k: Task, run: Option<Point>): Option<Point> {
    if run.Some? then Some(Target(run.value))
    else if k.ctx.Saved? then Some(k.ctx.point) else None
  }

  /** No request is outstanding. */
  predicate Quiet(l: Log) {
    |l.issued| == |l.execs| == |l.got| == l.notified
  }

  /** The last request issued awaits execution, and the record still describes it. */
  predicate Pending(k: Task, l: Log) {
    && |l.issued| == |l.execs| + 1 && |l.execs| == |l.got| == l.notified
    && k.args == l.issued[|l.execs|] && k.action == k.args.action && IsRequest(k.action)
  }

  /** The last request is executed, its result is in the record, and the coroutine has not read it. */
  predicate Answered(k: Task, l: Log) {
    && |l.issued| == |l.execs| == |l.got| + 1
    && k.ret == l.execs[|l.got|].ret
    && IsRequest(l.issued[|l.got|].action) && k.action == DoneAction(l.issued[|l.got|].action)
  }

  /** The last thing the coroutine did was operation `op`. */
  predicate EndsWith(l: Log, op: Op) {
    l.trace != [] && l.trace[|l.trace| - 1] == Issued(op)
  }

  /** Executions answer the requests in order; the values read are those of the executions. */
  predicate LogCore(l: Log) {
    && |l.got| <= |l.execs| <= |l.issued|
    && (l.exited <==> EndsWith(l, Exit))
    && (forall i :: 0 <= i < |l.execs| ==> l.execs[i].req == l.issued[i])
    && (forall i :: 0 <= i < |l.got| ==> l.got[i] == Delivered(l.execs[i].ret))
  }

  /** The record is fit to be handed to the manager's switch. */
  predicate ToResume(k: Task, l: Log, run: Option<Point>) {
    match k.action
    case NewCoroutine => Quiet(l) && run.None? && k.ctx.NoContext? && l.trace == []
    case SchedYield => Quiet(l) && Cont(k, run) == Some(User)
    case SemActivation => Quiet(l) && Cont(k, run).Some? && Cont(k, run).value.SemTest?
    case a => IsDone(a) && Answered(k, l) && l.notified == |l.execs| && Cont(k, run) == Some(GetRet)
  }

  /** A coroutine that runs and has not published its record. */
  predicate RunningOk(k: Task, l: Log, at: Point) {
    match at
    case ReqPush => Pending(k, l)
    case GetRet => Answered(k, l) && l.notified == |l.execs|
    case ReqWrite => false
    case YieldPost => false
    case Swap(_) => false
    case YieldPush => Quiet(l) && k.action == SchedYield
    case _ => Quiet(l)
  }

  predicate TaskOk(k: Task, l: Log, run: Option<Point>) {
    && (run.Some? ==> k.ctx.NoContext?)
    && (k.action.FinishedCoroutine? <==> l.exited)
    && (l.exited ==> k.place.AtManager? && run.None? && k.ctx.NoContext? && Quiet(l))
    && l.frees == 0 && (k.place.Abandoned? <==> EndsWith(l, Return))
    && match k.place
       case Unborn(_) => k.action.NewCoroutine? && ToResume(k, l, run)
       case InTodo => ToResume(k, l, run)
       case InDoing => Pending(k, l) && Cont(k, run) == Some(GetRet)
       case Watched => Pending(k, l) && Cont(k, run) == Some(GetRet)
       case AtWorker(_) =>
         && Cont(k, run) == Some(GetRet)
         && (Pending(k, l) || (Answered(k, l) && l.notified == |l.got|))
       case AtSem(n) => Quiet(l) && Cont(k, run) == Some(SemTest(n))
       case AtManager => run.Some? ==> RunningOk(k, l, run.value)
       case Abandoned => run.None? && Quiet(l)
  }

  /** Points at which the running coroutine has already handed its record on. */
  predicate Published(p: Point) { p.ReqWrite? || p.YieldPost? || p.Swap? }

  // ----- the manager thread -----

  predicate ManagerOk(s: State) {
    match s.manager
    case Waiting => true
    case Took => true
    case Aborted => false
    case Dispatch(t) =>
      && Live(s, t) && s.tasks[t].place.AtManager?
      && (if s.tasks[t].action.FinishedCoroutine? then s.curr == t else ToResume(s.tasks[t], s.logs[t], None))
    case Check(t) =>
      && Live(s, t) && s.curr == t
      && (s.tasks[t].action.FinishedCoroutine? <==> s.tasks[t].place.AtManager?)
      && !s.tasks[t].place.Unborn?
    case Running(t, at) =>
      && Live(s, t) && s.curr == t
      && (Published(at) <==> !s.tasks[t].place.AtManager?)
      && !s.tasks[t].place.Unborn?
      && (at.BornPush? ==> Live(s, at.child) && s.tasks[at.child].place == Unborn(false))
      && (at.SemTest? ==> at.sem in s.sems)
      && (at.WakePush? ==> Waking(s, at.sem))
  }

  /** crt_sem_post has counted and found a waiter, which it has yet to queue. */
  predicate Waking(s: State, n: SemId) {
    && n in s.sems && s.sems[n].value == 1 && s.sems[n].waiter.Some?
    && var u := s.sems[n].waiter.value;
       Live(s, u) && s.tasks[u].place == AtSem(n) && s.tasks[u].action.SemActivation?
  }

  predicate HeldByManager(m: Manager, t: Id) {
    match m
    case Dispatch(u) => t == u
    case Check(u) => t == u
    case Running(u, _) => t == u
    case _ => false
  }

  // ----- who holds which task record -----

  predicate QueueOk(q: seq<Id>, tasks: map<Id, Task>, place: Where) {
    && NoDup(q)
    && (forall i :: 0 <= i < |q| ==> q[i] in tasks && tasks[q[i]].place == place)
    && (forall t :: t in tasks && tasks[t].place == place ==> t in q)
  }

  /** The task a worker owns; after the push it only remembers a pointer. */
  function Owned(w: Worker): Option<Id> {
    match w
    case Exec(t) => Some(t)
    case Returned(t, ret) => if ret == 0 then Some(t) else None
    case Notify(t, _) => Some(t)
    case _ => None
  }

  predicate WorkerOk(s: State, w: nat)
    requires w < |s.workers|
  {
    var p := s.workers[w];
    && !p.Dead?
    && (p.Returned? ==> p.ret == 0 || p.ret == 1)
    && (Owned(p).Some? ==>
          var t := Owned(p).value;
          && Live(s, t) && s.tasks[t].place == AtWorker(w)
          && (if p.Exec? then Pending(s.tasks[t], s.logs[t])
              else Answered(s.tasks[t], s.logs[t]) && s.logs[t].notified == |s.logs[t].got|))
  }

  predicate WatchOk(s: State, t: Id)
    requires t in s.watch
  {
    var a := s.watch[t];
    && Live(s, t) && s.tasks[t].place.Watched?
    && a.w < |s.workers| && IsRequest(s.tasks[t].action) && !IsSynchronous(s.tasks[t].action)
    && a == Armed(s.tasks[t], a.w)
  }

  predicate WorkersOk(s: State) {
    forall w {:trigger WorkerOk(s, w)} :: 0 <= w < |s.workers| ==> WorkerOk(s, w)
  }

  predicate WatchesOk(s: State) { forall t {:trigger WatchOk(s, t)} :: t in s.watch ==> WatchOk(s, t) }

  predicate CreatingOk(s: State) {
    forall t :: t in s.creating ==> t in s.tasks && s.tasks[t].place == Unborn(true)
  }

  predicate PlacesOk(s: State) { forall t {:trigger PlaceHolds(s, t)} :: t in s.tasks ==> PlaceHolds(s, t) }

  /** The holder that the bookkeeping names does hold the record. */
  predicate PlaceHolds(s: State, t: Id)
    requires t in s.tasks
  {
    match s.tasks[t].place
    case AtWorker(w) => w < |s.workers| && Owned(s.workers[w]) == Some(t)
    case Watched => t in s.watch
    case Unborn(external) => if external then t in s.creating else RunsAt(s.manager, BornPush(t))
    case AtSem(n) => n in s.sems && s.sems[n].waiter == Some(t)
    case AtManager => HeldByManager(s.manager, t)
    case _ => true
  }

  predicate RunsAt(m: Manager, p: Point) { m.Running? && m.at == p }

  // ----- semaphores -----

  predicate SemOk(s: State, n: SemId)
    requires n in s.sems
  {
    var m := s.sems[n];
    && m.value >= 0 && m.value + m.waits == m.init + m.posts
    && (m.waiter.Some? ==>
          var t := m.waiter.value;
          && Live(s, t)
          && (if s.tasks[t].place == AtSem(n)
              then (m.value == 0 && !IsWaking(s.manager, n)) || (m.value == 1 && IsWaking(s.manager, n))
              else m.value == 1 && Activated(s, t, n)))
  }

  predicate IsWaking(m: Manager, n: SemId) { m.Running? && m.at.WakePush? && m.at.sem == n }

  /** The waiter of `n` is queued or taken by the manager, and will go on at the head of its loop. */
  predicate Activated(s: State, t: Id, n: SemId)
    requires t in s.tasks
  {
    && (s.tasks[t].place.InTodo? || s.tasks[t].place.AtManager?)
    && s.tasks[t].action.SemActivation?
    && Cont(s.tasks[t], RunPoint(s.manager, t)) == Some(SemTest(n))
  }

  /** A coroutine suspended in crt_sem_wait is the waiter of that semaphore. */
  predicate WaiterKnown(s: State, t: Id)
    requires t in s.tasks
  {
    var run := RunPoint(s.manager, t);
    var c := Cont(s.tasks[t], run);
    c.Some? && c.value.SemTest? ==>
      && c.value.sem in s.sems
      && (s.sems[c.value.sem].waiter == Some(t)
          || (run == c && s.sems[c.value.sem].waiter.None?))
  }

  predicate SemsOk(s: State) {
    && (forall n {:trigger SemOk(s, n)} :: n in s.sems ==> SemOk(s, n))
    && (forall t {:trigger WaiterKnown(s, t)} :: t in s.tasks ==> WaiterKnown(s, t))
  }

  // ----- counting -----

  /** Producers between their Push(todo_queue) and their sem_post, among the workers. */
  function PostCount(w: Worker): nat { if w.Posting? then 1 else 0 }

  /** Workers between reading a token and their Shift(doing_queue). */
  function TokenCount(w: Worker): nat { if w.Token? then 1 else 0 }

  function Map<T>(f: T -> nat, xs: seq<T>): (r: seq<nat>)
    ensures |r| == |xs| && forall i :: 0 <= i < |xs| ==> r[i] == f(xs[i])
  {
    seq(|xs|, i requires 0 <= i < |xs| => f(xs[i]))
  }

  function Unannounced(s: State): nat {
    Sum(Map(PostCount, s.workers)) + s.unposted
    + (if s.manager.Running? && (s.manager.at.YieldPost? || s.manager.at.WakePost? || s.manager.at.BornPost?) then 1 else 0)
  }

  function Taking(s: State): nat { if s.manager.Took? then 1 else 0 }

  function Reading(s: State): nat { Sum(Map(TokenCount, s.workers)) }

  function Writing(s: State): nat { if RunsAt(s.manager, ReqWrite) then 1 else 0 }

  predicate TokensOk(s: State) {
    && |s.todo| == s.sem + Taking(s) + Unannounced(s)
    && |s.doing| == Sum(s.pipes) + Reading(s) + Writing(s)
  }

  predicate CountsOk(s: State) {
    && s.cid == (s.ran + |s.tasks|) % TWO_TO_THE_64
    && s.ran < TWO_TO_THE_64
  }

  /** The two equations of the tokens, the id counter, and one pipe for each of at least one worker. */
  predicate Tallies(s: State) { TokensOk(s) && CountsOk(s) && |s.pipes| == |s.workers| >= 1 }

  // ----- the whole -----

  predicate RecordOk(s: State, t: Id)
    requires t in s.tasks
  {
    t < |s.logs| && TaskOk(s.tasks[t], s.logs[t], RunPoint(s.manager, t))
  }

  predicate RecordsOk(s: State) { forall t {:trigger RecordOk(s, t)} :: t in s.tasks ==> RecordOk(s, t) }

  predicate LogOk(s: State, t: Id)
    requires t < |s.logs|
  {
    var l := s.logs[t];
    LogCore(l) && (t !in s.tasks ==> Quiet(l) && l.exited && l.frees == 1)
  }

  predicate LogsOk(s: State) {
    forall t {:trigger LogOk(s, t)} :: 0 <= t < |s.logs| ==> LogOk(s, t)
  }

  predicate QueuesOk(s: State) {
    QueueOk(s.todo, s.tasks, InTodo) && QueueOk(s.doing, s.tasks, InDoing)
  }

  datatype EachPart = Records | Logs | Workers | Watches | Creating | Places | Sems

  predicate EachPartOk(s: State, p: EachPart) {
    match p
    case Records => RecordsOk(s)
    case Logs => LogsOk(s)
    case Workers => WorkersOk(s)
    case Watches => WatchesOk(s)
    case Creating => CreatingOk(s)
    case Places => PlacesOk(s)
    case Sems => SemsOk(s)
  }

  /** The parts of the invariant that speak of single records. */
  ghost predicate EachOk(s: State) { forall p {:trigger EachPartOk(s, p)} :: EachPartOk(s, p) }

  lemma OpenEach(s: State)
    requires EachOk(s)
    ensures RecordsOk(s) && LogsOk(s) && WorkersOk(s) && WatchesOk(s) && CreatingOk(s) && PlacesOk(s) && SemsOk(s)
  {
    assert EachPartOk(s, Records) && EachPartOk(s, Logs) && EachPartOk(s, Workers) && EachPartOk(s, Watches);
    assert EachPartOk(s, Creating) && EachPartOk(s, Places) && EachPartOk(s, Sems);
  }

  lemma CloseEach(s: State)
    requires RecordsOk(s) && LogsOk(s) && WorkersOk(s) && WatchesOk(s) && CreatingOk(s) && PlacesOk(s) && SemsOk(s)
    ensures EachOk(s)
  {
    forall p ensures EachPartOk(s, p) {}
  }

  datatype CorePart = Manager | Queues | Numbers

  predicate CorePartOk(s: State, p: CorePart) {
    match p
    case Manager => ManagerOk(s)
    case Queues => QueuesOk(s)
    case Numbers => Tallies(s)
  }

  /** The parts that speak of the manager, the queues and the counters. */
  ghost predicate CoreOk(s: State) { forall p {:trigger CorePartOk(s, p)} :: CorePartOk(s, p) }

  lemma OpenCore(s: State)
    requires CoreOk(s)
    ensures ManagerOk(s) && QueuesOk(s) && Tallies(s)
  {
    assert CorePartOk(s, Manager) && CorePartOk(s, Queues) && CorePartOk(s, Numbers);
  }

  lemma CloseCore(s: State)
    requires ManagerOk(s) && QueuesOk(s) && Tallies(s)
    ensures CoreOk(s)
  {
    forall p ensures CorePartOk(s, p) {}
  }

  ghost predicate Inv(s: State) { EachOk(s) && CoreOk(s) }

  lemma Open(s: State)
    requires Inv(s)
    ensures RecordsOk(s) && LogsOk(s) && WorkersOk(s) && WatchesOk(s) && CreatingOk(s) && PlacesOk(s) && SemsOk(s)
    ensures ManagerOk(s) && QueuesOk(s) && Tallies(s)
  {
    OpenEach(s);
    OpenCore(s);
  }

  // ----- one part, or one record, at a time -----

  lemma OneManager(s: State)
    requires Inv(s)
    ensures ManagerOk(s)
  {
    OpenCore(s);
  }

  lemma BothQueues(s: State)
    requires Inv(s)
    ensures QueuesOk(s)
  {
    OpenCore(s);
  }

  lemma AllTallies(s: State)
    requires Inv(s)
    ensures Tallies(s)
  {
    OpenCore(s);
  }

  lemma OneCreating(s: State, t: Id)
    requires Inv(s) && t in s.creating
    ensures t in s.tasks && s.tasks[t].place == Unborn(true)
  {
    OpenEach(s);
  }

  lemma AllSems(s: State)
    requires Inv(s)
    ensures SemsOk(s)
  {
    OpenEach(s);
  }

  lemma OneRecord(s: State, t: Id)
    requires Inv(s) && t in s.tasks
    ensures RecordOk(s, t)
  {
    OpenEach(s);
  }

  lemma OneWorker(s: State, w: nat)
    requires Inv(s) && w < |s.workers|
    ensures WorkerOk(s, w)
  {
    OpenEach(s);
  }

  lemma OneWatch(s: State, t: Id)
    requires Inv(s) && t in s.watch
    ensures WatchOk(s, t)
  {
    OpenEach(s);
  }

  lemma OneSem(s: State, n: SemId)
    requires Inv(s) && n in s.sems
    ensures SemOk(s, n)
  {
    OpenEach(s);
  }

  /** The next number is not taken. */
  lemma FreshNumber(s: State)
    requires EachOk(s)
    ensures |s.logs| !in s.tasks
  {
    OpenEach(s);
    assert |s.logs| in s.tasks ==> RecordOk(s, |s.logs|);
  }

  lemma NoRecords(s: State)
    requires RecordsOk(s) && s.logs == []
    ensures s.tasks == map[]
  {
    assert forall t :: t in s.tasks ==> RecordOk(s, t);
  }

  /** Only a record whose request waits for an event has watchers. */
  lemma NotWatched(s: State, t: Id)
    requires WatchesOk(s) && (t !in s.tasks || !s.tasks[t].place.Watched?)
    ensures t !in s.watch
  {
    assert t in s.watch ==> WatchOk(s, t);
  }
}
