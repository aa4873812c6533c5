/** The invariant holds in every state of every run. */
module Runs {
  import opened Actions
  import opened Scheduler
  import opened Seqs
  import opened Invariant
  import opened Frames
  import opened ManagerSteps
  import opened BirthSteps
  import opened ChoiceSteps
  import opened WorkerSteps

  lemma InitWorkers(workers: nat)
    ensures WorkersOk(Init(workers))
  {
    var s := Init(workers);
    forall w | 0 <= w < |s.workers| ensures WorkerOk(s, w) {
      assert s.workers[w] == Idle;
    }
  }

  lemma InitTokens(workers: nat)
    ensures TokensOk(Init(workers))
  {
    var s := Init(workers);
    assert Sum(s.pipes) == 0 by { SumZero(s.pipes); }
    assert Sum(Map(PostCount, s.workers)) == 0 by { SumZero(Map(PostCount, s.workers)); }
    assert Sum(Map(TokenCount, s.workers)) == 0 by { SumZero(Map(TokenCount, s.workers)); }
  }

  lemma FirstEach(workers: nat)
    ensures EachOk(Init(workers))
  {
    InitWorkers(workers);
    CloseEach(Init(workers));
  }

  lemma FirstTallies(workers: nat)
    requires workers >= 1
    ensures Tallies(Init(workers))
  {
    InitTokens(workers);
    assert |Init(workers).tasks| == 0;
  }

  lemma FirstCore(workers: nat)
    requires workers >= 1
    ensures CoreOk(Init(workers))
  {
    FirstTallies(workers);
    CloseCore(Init(workers));
  }

  lemma InitInv(workers: nat)
    requires workers >= 1
    ensures Inv(Init(workers))
  {
    FirstEach(workers);
    FirstCore(workers);
  }

  // ----- the manager thread -----

  lemma ContinueKeeps(s: State, t: Id, at: Point)
    requires Inv(s) && s.manager == Running(t, at) && at != User
    ensures Inv(MainStep(s))
  {
    OpenCore(s);
    match at
    case ReqPush => PublishRequestEach(s, t); PublishRequestCore(s, t);
    case ReqWrite => WriteTokenEach(s, t); WriteTokenCore(s, t);
    case YieldPush => PublishYieldEach(s, t); PublishYieldCore(s, t);
    case YieldPost => YieldSignalEach(s, t); YieldSignalCore(s, t);
    case WakePush(n, front) =>
      var u := s.sems[n].waiter.value;
      AwakenEach(s, t, u, n, front); AwakenCore(s, t, u, n, front);
    case WakePost => SignalForOtherEach(s, t); SignalForOtherCore(s, t);
    case BornPush(u) => DeliverEach(s, t, u); DeliverCore(s, t, u);
    case BornPost => SignalForOtherEach(s, t); SignalForOtherCore(s, t);
    case SemTest(n) =>
      if s.sems[n].value > 0 { TakeSemEach(s, t, n); TakeSemCore(s, t, n); } else { ParkEach(s, t, n); ParkCore(s, t, n); }
    case GetRet => ReadResultEach(s, t); ReadResultCore(s, t);
    case Swap(p) => SwapOutEach(s, t, p); SwapOutCore(s, t, p);
  }

  /** A unit of manager_sem, once taken, stands for a task in todo_queue. */
  lemma TaskWaits(s: State)
    requires Inv(s) && s.manager.Took?
    ensures s.todo != [] && Live(s, s.todo[0]) && s.tasks[s.todo[0]].place.InTodo?
  {
    Open(s);
    assert RecordOk(s, s.todo[0]);
  }

  lemma DispatchKeeps(s: State, t: Id)
    requires Inv(s) && s.manager == Dispatch(t)
    ensures Inv(MainStep(s))
  {
    OpenCore(s);
    if s.tasks[t].action.NewCoroutine? {
      StartEach(s, t); StartCore(s, t);
    } else if s.tasks[t].action.FinishedCoroutine? {
      Holding(s, t);
      FreeEach(s, t); FreeCore(s, t);
    } else {
      ResumeEach(s, t); ResumeCore(s, t);
    }
  }

  lemma MainKeeps(s: State)
    requires Inv(s) && MainEnabled(s)
    ensures Inv(MainStep(s))
  {
    match s.manager
    case Waiting => TakeUnitEach(s); TakeUnitCore(s);
    case Took =>
      TaskWaits(s);
      TakeTaskEach(s, s.todo[0]); TakeTaskCore(s, s.todo[0]);
    case Dispatch(t) => DispatchKeeps(s, t);
    case Check(t) =>
      OpenCore(s);
      if s.tasks[t].action.FinishedCoroutine? { ReenterEach(s, t); ReenterCore(s, t); } else { LetGoEach(s, t); LetGoCore(s, t); }
    case Running(t, at) => ContinueKeeps(s, t, at);
  }

  // ----- the other events -----

  lemma ChooseKeeps(s: State, op: Op)
    requires Inv(s) && ChooseEnabled(s, op) && Disciplined(s, op)
    ensures Inv(ChooseStep(s, op))
  {
    var t := s.manager.t;
    match op
    case SemInit(n, v) => InitEach(s, t, n, v); InitCore(s, t, n, v);
    case SemWait(n) => WaitEach(s, t, n); WaitCore(s, t, n);
    case SemPost(n, front) =>
      if s.sems[n].waiter.None? {
        PostFreeEach(s, t, n, front); PostFreeCore(s, t, n, front);
      } else {
        var u := s.sems[n].waiter.value;
        PostWakeEach(s, t, n, front, u); PostWakeCore(s, t, n, front, u);
      }
    case Create => CreateEach(s, t); CreateCore(s, t);
    case _ => OwnEach(s, t, op); OwnCore(s, t, op);
  }

  lemma WorkKeeps(s: State, w: nat, raw: Ret, immediate: bool)
    requires Inv(s) && WorkEnabled(s, w)
    ensures Inv(WorkStep(s, w, raw, immediate))
  {
    Open(s);
    assert WorkerOk(s, w);
    match s.workers[w]
    case Token =>
      TakeRequestEach(s, w, raw, immediate);
      TakeRequestCore(s, w, raw, immediate);
    case Exec(t) => DoTaskEach(s, w, t, raw, immediate); DoTaskCore(s, w, t, raw, immediate);
    case Returned(_, _) => LeaveEach(s, w, raw, immediate); LeaveCore(s, w, raw, immediate);
    case Notify(t, inner) =>
      NotifyEach(s, w, t, inner, raw, immediate);
      NotifyCore(s, w, t, inner, raw, immediate);
    case Posting(_, _) => LeaveEach(s, w, raw, immediate); LeaveCore(s, w, raw, immediate);
  }

  lemma FireKeeps(s: State, w: nat, t: Id, timer: bool, raw: Option<Ret>)
    requires Inv(s) && FireEnabled(s, w, t, timer, raw)
    ensures Inv(FireStep(s, w, t, timer, raw))
  {
    if raw.Some? {
      FireEach(s, w, t, timer, raw.value); FireCore(s, w, t, timer, raw.value);
    }
  }

  lemma BirthKeeps(s: State, e: Event)
    requires Inv(s) && Enabled(s, e) && (e.Begin? || e.BeginPush? || e.BeginPost?)
    ensures Inv(Step(s, e))
  {
    match e
    case Begin =>
      BeginEach(s);
      BeginCore(s);
    case BeginPush(t) => BeginPushEach(s, t); BeginPushCore(s, t);
    case BeginPost => BeginPostEach(s); BeginPostCore(s);
  }

  /** One step of any thread keeps the invariant. */
  lemma StepKeeps(s: State, e: Event)
    requires Inv(s) && Allowed(s, e)
    ensures Inv(Step(s, e))
  {
    match e
    case Main => MainKeeps(s);
    case Choose(op) => ChooseKeeps(s, op);
    case Read(w) => ReadEach(s, w); ReadCore(s, w);
    case Work(w, raw, immediate) => WorkKeeps(s, w, raw, immediate);
    case Fire(w, t, timer, raw) => FireKeeps(s, w, t, timer, raw);
    case Begin => BirthKeeps(s, e);
    case BeginPush(t) => BirthKeeps(s, e);
    case BeginPost => BirthKeeps(s, e);
  }

  /** The state after any run, for any number of workers, satisfies the invariant. */
  lemma {:induction false} RunInv(workers: nat, es: seq<Event>)
    requires workers >= 1 && Possible(Init(workers), es)
    ensures Inv(After(Init(workers), es))
    decreases |es|
  {
    if es == [] {
      InitInv(workers);
    } else {
      var before := es[..|es| - 1];
      RunInv(workers, before);
      StepKeeps(After(Init(workers), before), es[|es| - 1]);
    }
  }
}
