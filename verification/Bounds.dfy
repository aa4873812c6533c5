/**
 Termination: every step but a coroutine's choice of an operation, a thread entering crt_create
 and a callback that must wait for more lowers a measure; so the length of a run is bounded by
 the number of those three.
*/
module Bounds {
  import opened Actions
  import opened Scheduler
  import opened Seqs
  import opened Invariant
  import opened Runs
  import opened WorkerSteps

  // Steps that a record in each place may still cause, at most.
  const IN_TODO := 12
  const IN_DOING := 21
  const WATCHED := 18
  const UNBORN := 15
  const PER_CHOICE := 27
  const PER_BEGIN := 16

  function PointRank(p: Point): nat {
    match p
    case User => 0
    case ReqPush => 26
    case ReqWrite => 4
    case YieldPush => 17
    case YieldPost => 4
    case WakePush(_, _) => 15
    case WakePost => 2
    case BornPush(_) => 15
    case BornPost => 2
    case SemTest(_) => 10
    case GetRet => 1
    case Swap(_) => 2
  }

  function ManagerRank(s: State): nat {
    match s.manager
    case Waiting => 0
    case Took => 0
    case Aborted => 0
    case Dispatch(t) => if Finished(s, t) then 1 else 11
    case Check(t) => if Finished(s, t) then 2 else 1
    case Running(_, at) => PointRank(at)
  }

  predicate Finished(s: State, t: Id) { t in s.tasks && s.tasks[t].action.FinishedCoroutine? }

  function WorkerRank(w: Worker): nat {
    match w
    case Idle => 0
    case Token => 0
    case Exec(_) => 20
    case Returned(_, ret) => if ret == 0 then 18 else 1
    case Notify(_, _) => 17
    case Posting(_, _) => 3
    case Dead => 0
  }

  /** What is left to do without any new operation, creation or unready callback. */
  function Measure(s: State): nat {
    s.sem + Sum(s.pipes) + IN_TODO * |s.todo| + IN_DOING * |s.doing| + WATCHED * |s.watch|
    + UNBORN * |s.creating| + 2 * s.unposted + ManagerRank(s) + Sum(Map(WorkerRank, s.workers))
  }

  predicate IsBegin(e: Event) { e.Begin? }
  predicate IsChoice(e: Event) { e.Choose? }
  predicate IsUnready(e: Event) { e.Fire? && e.fired.None? }

  /** What an event may add to the measure, plus the one step it is. */
  function Cost(e: Event): nat {
    if IsChoice(e) then PER_CHOICE else if IsBegin(e) then PER_BEGIN else if IsUnready(e) then 1 else 0
  }

  lemma WorkerRanks(s: State, s': State, w: nat)
    requires w < |s.workers| && w < |s'.workers| && s'.workers == s.workers[w := s'.workers[w]]
    ensures Sum(Map(WorkerRank, s'.workers)) + WorkerRank(s.workers[w])
         == Sum(Map(WorkerRank, s.workers)) + WorkerRank(s'.workers[w])
  {
    assert Map(WorkerRank, s'.workers) == Map(WorkerRank, s.workers)[w := WorkerRank(s'.workers[w])];
    SumUpdate(Map(WorkerRank, s.workers), w, WorkerRank(s'.workers[w]));
  }

  lemma TokenLowers(s: State, t: Id)
    requires ManagerOk(s) && s.manager == Running(t, ReqWrite) && |s.pipes| >= 1
    ensures Measure(MainStep(s)) < Measure(s)
  {
    var i := s.bgId % |s.pipes|;
    SumUpdate(s.pipes, i, s.pipes[i] + 1);
  }

  lemma ContinueLowers(s: State, t: Id, at: Point)
    requires ManagerOk(s) && s.manager == Running(t, at) && at != User && |s.pipes| >= 1
    requires at.Swap? ==> !Finished(s, t)
    ensures Measure(MainStep(s)) < Measure(s)
  {
    if at == ReqWrite { TokenLowers(s, t); }
  }

  lemma LoopLowers(s: State)
    requires ManagerOk(s) && MainEnabled(s) && !s.manager.Running?
    requires s.manager.Took? ==> s.todo != [] && Live(s, s.todo[0]) && !Finished(s, s.todo[0])
    requires s.manager.Dispatch? ==>
               var t := s.manager.t;
               Finished(s, t) || s.tasks[t].action.NewCoroutine? || ResumesShortly(s, t)
    ensures Measure(MainStep(s)) < Measure(s)
  {
  }

  predicate ResumesShortly(s: State, t: Id) {
    && Live(s, t) && s.tasks[t].ctx.Saved?
    && var p := s.tasks[t].ctx.point; p == User || p == GetRet || p.SemTest?
  }

  lemma MainLowersInv(s: State)
    requires Inv(s) && MainEnabled(s)
    ensures Measure(MainStep(s)) < Measure(s)
  {
    Open(s);
    if s.manager.Took? {
      TaskWaits(s);
      assert RecordOk(s, s.todo[0]);
    }
    if s.manager.Running? || s.manager.Dispatch? {
      assert RecordOk(s, s.manager.t) && PlaceHolds(s, s.manager.t);
    }
    if s.manager.Running? { ContinueLowers(s, s.manager.t, s.manager.at); } else { LoopLowers(s); }
  }

  lemma ChooseCost(s: State, op: Op)
    requires ManagerOk(s) && ChooseEnabled(s, op) && Disciplined(s, op)
    requires op.SemPost? && s.sems[op.k].waiter.Some? ==> Live(s, s.sems[op.k].waiter.value)
    ensures Measure(ChooseStep(s, op)) + 1 <= Measure(s) + PER_CHOICE
  {
  }

  lemma CompleteLowers(s: State, w: nat, t: Id, raw: Ret, next: Worker)
    requires w < |s.workers| && s.workers[w] == Exec(t) && WorkerOk(s, w) && WorkerRank(next) < WorkerRank(Exec(t))
    ensures Measure(Complete(s, w, t, raw, next)) < Measure(s)
  {
    WorkerRanks(s, Complete(s, w, t, raw, next), w);
  }

  lemma WatchAdded(s: State, w: nat, t: Id)
    requires t !in s.watch && t in s.tasks
    ensures |s.watch[t := Armed(s.tasks[t], w)]| == |s.watch| + 1
  {
    var more := s.watch[t := Armed(s.tasks[t], w)];
    assert more.Keys == s.watch.Keys + {t};
    assert |s.watch| == |s.watch.Keys| && |more| == |more.Keys|;
  }

  lemma ArmLowers(s: State, w: nat, t: Id, raw: Ret, immediate: bool)
    requires w < |s.workers| && s.workers[w] == Exec(t) && WorkerOk(s, w) && t !in s.watch
    requires var k := s.tasks[t]; !IsSynchronous(k.action) && !(k.action.TimeoutConnect? && immediate)
    ensures Measure(WorkStep(s, w, raw, immediate)) < Measure(s)
  {
    WorkerRanks(s, WorkStep(s, w, raw, immediate), w);
    WatchAdded(s, w, t);
  }

  lemma HandlerLowers(s: State, w: nat, t: Id, raw: Ret, immediate: bool)
    requires w < |s.workers| && s.workers[w] == Exec(t) && WorkerOk(s, w) && t !in s.watch
    ensures Measure(WorkStep(s, w, raw, immediate)) < Measure(s)
  {
    if IsSynchronous(s.tasks[t].action) {
      CompleteLowers(s, w, t, raw, Returned(t, 0));
    } else if s.tasks[t].action.TimeoutConnect? && immediate {
      CompleteLowers(s, w, t, raw, Notify(t, true));
    } else {
      ArmLowers(s, w, t, raw, immediate);
    }
  }

  lemma PhaseLowers(s: State, w: nat, raw: Ret, immediate: bool)
    requires WorkEnabled(s, w) && WorkerOk(s, w) && !s.workers[w].Exec?
    requires s.workers[w].Token? ==> s.doing != [] && Live(s, s.doing[0])
    ensures Measure(WorkStep(s, w, raw, immediate)) < Measure(s)
  {
    WorkerRanks(s, WorkStep(s, w, raw, immediate), w);
  }

  lemma WatchGone(s: State, w: nat, t: Id, timer: bool, raw: Ret)
    requires FireEnabled(s, w, t, timer, Some(raw)) && WatchOk(s, t)
    ensures |FireStep(s, w, t, timer, Some(raw)).watch| == |s.watch| - 1
  {
    var s' := FireStep(s, w, t, timer, Some(raw));
    assert s.watch.Keys == s'.watch.Keys + {t} && t !in s'.watch;
    assert |s.watch| == |s.watch.Keys| && |s'.watch| == |s'.watch.Keys|;
  }

  lemma FireLowers(s: State, w: nat, t: Id, timer: bool, raw: Ret)
    requires FireEnabled(s, w, t, timer, Some(raw)) && WatchOk(s, t)
    ensures Measure(FireStep(s, w, t, timer, Some(raw))) < Measure(s)
  {
    var s' := FireStep(s, w, t, timer, Some(raw));
    WatchGone(s, w, t, timer, raw);
    WorkerRanks(s, s', w);
  }

  lemma ReadLowers(s: State, w: nat)
    requires ReadEnabled(s, w)
    ensures Measure(ReadStep(s, w)) < Measure(s)
  {
    WorkerRanks(s, ReadStep(s, w), w);
    SumUpdate(s.pipes, w, s.pipes[w] - 1);
  }

  lemma OneMoreCreator(creating: set<Id>, t: Id)
    ensures |creating + {t}| <= |creating| + 1
  {
  }

  lemma OneCreatorLess(creating: set<Id>, t: Id)
    requires t in creating
    ensures |creating - {t}| == |creating| - 1
  {
    assert creating == (creating - {t}) + {t};
  }

  lemma EnterCost(s: State)
    requires ManagerOk(s)
    ensures Measure(BeginStep(s)) + 1 <= Measure(s) + PER_BEGIN
  {
    OneMoreCreator(s.creating, |s.logs|);
  }

  lemma QueueCost(s: State, t: Id)
    requires ManagerOk(s) && BeginPushEnabled(s, t)
    ensures Measure(BeginPushStep(s, t)) + 1 <= Measure(s)
  {
    OneCreatorLess(s.creating, t);
  }

  lemma BeginCost(s: State, e: Event)
    requires ManagerOk(s) && Enabled(s, e) && (e.Begin? || e.BeginPush? || e.BeginPost?)
    ensures Measure(Step(s, e)) + 1 <= Measure(s) + Cost(e)
  {
    match e
    case Begin => EnterCost(s);
    case BeginPush(t) => QueueCost(s, t);
    case _ =>
  }

  lemma StepCost(s: State, e: Event)
    requires Inv(s) && Allowed(s, e)
    ensures Measure(Step(s, e)) + 1 <= Measure(s) + Cost(e)
  {
    Open(s);
    match e
    case Main => MainLowersInv(s);
    case Choose(op) =>
      if op.SemPost? { assert SemOk(s, op.k); }
      ChooseCost(s, op);
    case Read(w) => ReadLowers(s, w);
    case Work(w, raw, immediate) =>
      assert WorkerOk(s, w);
      if s.workers[w].Token? { RequestWaits(s, w); assert RecordOk(s, s.doing[0]); }
      if s.workers[w].Exec? {
        NotWatched(s, s.workers[w].t);
        HandlerLowers(s, w, s.workers[w].t, raw, immediate);
      } else {
        PhaseLowers(s, w, raw, immediate);
      }
    case Fire(w, t, timer, raw) =>
      assert WatchOk(s, t);
      if raw.Some? { FireLowers(s, w, t, timer, raw.value); }
    case _ => BeginCost(s, e);
  }

  function Count(es: seq<Event>, p: Event -> bool): nat {
    if es == [] then 0 else Count(es[..|es| - 1], p) + (if p(es[|es| - 1]) then 1 else 0)
  }

  lemma {:induction false} RunCost(workers: nat, es: seq<Event>)
    requires workers >= 1 && Possible(Init(workers), es)
    ensures Measure(After(Init(workers), es)) + |es|
         <= Measure(Init(workers)) + PER_CHOICE * Count(es, IsChoice) + PER_BEGIN * Count(es, IsBegin) + Count(es, IsUnready)
    decreases |es|
  {
    if es != [] {
      var before := es[..|es| - 1];
      RunCost(workers, before);
      RunInv(workers, before);
      StepCost(After(Init(workers), before), es[|es| - 1]);
    }
  }

  /**
   The length of a run is at most 27 times the operations chosen plus 16 times the external
   creations plus the callbacks that found the kernel not ready. Finite scripts on a kernel that
   is unready finitely often give finite runs.
   */
  lemma RunsAreFinite(workers: nat, es: seq<Event>)
    requires workers >= 1 && Possible(Init(workers), es)
    ensures |es| <= PER_CHOICE * Count(es, IsChoice) + PER_BEGIN * Count(es, IsBegin) + Count(es, IsUnready)
  {
    RunCost(workers, es);
    var s := Init(workers);
    assert Sum(s.pipes) == 0 by { SumZero(s.pipes); }
    assert Sum(Map(WorkerRank, s.workers)) == 0 by { SumZero(Map(WorkerRank, s.workers)); }
  }
}
