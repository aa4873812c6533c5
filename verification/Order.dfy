/** What the scheduler does to its two queues, and how long a task waits in todo_queue. */
module Order {
  import opened Actions
  import opened Scheduler
  import opened Seqs
  import opened Invariant
  import opened Runs
  import opened WorkerSteps

  datatype QueueOp = Keep | Push(t: Id) | Unshift(t: Id) | Shift

  function Apply(q: seq<Id>, op: QueueOp): seq<Id>
    requires op.Shift? ==> q != []
  {
    match op
    case Keep => q
    case Push(t) => q + [t]
    case Unshift(t) => [t] + q
    case Shift => q[1..]
  }

  /** The operation on todo_queue that an event performs. */
  function TodoOp(s: State, e: Event): QueueOp {
    match e
    case Main =>
      if s.manager.Took? then Shift
      else if s.manager.Running? then
        match s.manager.at
        case YieldPush => Push(s.curr)
        case BornPush(u) => Push(u)
        case WakePush(n, front) =>
          if n in s.sems && s.sems[n].waiter.Some? then
            if front then Unshift(s.sems[n].waiter.value) else Push(s.sems[n].waiter.value)
          else Keep
        case _ => Keep
      else Keep
    case Work(w, _, _) => if w < |s.workers| && s.workers[w].Notify? then Push(s.workers[w].t) else Keep
    case BeginPush(t) => Push(t)
    case _ => Keep
  }

  /** The operation on doing_queue that an event performs. */
  function DoingOp(s: State, e: Event): QueueOp {
    match e
    case Main => if RunsAt(s.manager, ReqPush) then Push(s.curr) else Keep
    case Work(w, _, _) => if w < |s.workers| && s.workers[w].Token? then Shift else Keep
    case _ => Keep
  }

  /** A record is inserted only when neither queue links it; only a non-empty queue is shifted. */
  predicate Legal(todo: seq<Id>, doing: seq<Id>, todoOp: QueueOp, doingOp: QueueOp) {
    && (todoOp.Shift? ==> todo != []) && (doingOp.Shift? ==> doing != [])
    && (todoOp.Push? || todoOp.Unshift? ==> todoOp.t !in todo && todoOp.t !in doing)
    && (doingOp.Push? || doingOp.Unshift? ==> doingOp.t !in todo && doingOp.t !in doing)
    && (todoOp.Keep? || doingOp.Keep?)
  }

  lemma NotQueued(s: State, t: Id)
    requires QueuesOk(s) && t in s.tasks && !s.tasks[t].place.InTodo? && !s.tasks[t].place.InDoing?
    ensures t !in s.todo && t !in s.doing
  {
  }

  lemma MainQueues(s: State)
    requires QueuesOk(s) && ManagerOk(s) && MainEnabled(s) && |s.pipes| >= 1
    requires s.manager.Took? ==> s.todo != [] && Live(s, s.todo[0])
    requires s.manager.Dispatch? ==> s.tasks[s.manager.t].ctx.Saved? || !IsResumable(s.tasks[s.manager.t].action)
    ensures Legal(s.todo, s.doing, TodoOp(s, Main), DoingOp(s, Main))
    ensures MainStep(s).todo == Apply(s.todo, TodoOp(s, Main)) && MainStep(s).doing == Apply(s.doing, DoingOp(s, Main))
  {
  }

  lemma WorkQueues(s: State, w: nat, raw: Ret, immediate: bool)
    requires QueuesOk(s) && WorkEnabled(s, w) && WorkerOk(s, w)
    requires s.workers[w].Token? ==> s.doing != [] && Live(s, s.doing[0])
    ensures var e := Work(w, raw, immediate);
            && Legal(s.todo, s.doing, TodoOp(s, e), DoingOp(s, e))
            && Step(s, e).todo == Apply(s.todo, TodoOp(s, e)) && Step(s, e).doing == Apply(s.doing, DoingOp(s, e))
  {
  }

  lemma ChooseQueues(s: State, op: Op)
    requires ChooseEnabled(s, op)
    ensures ChooseStep(s, op).todo == s.todo && ChooseStep(s, op).doing == s.doing
  {
  }

  lemma FireQueues(s: State, w: nat, t: Id, timer: bool, raw: Option<Ret>)
    requires FireEnabled(s, w, t, timer, raw)
    ensures FireStep(s, w, t, timer, raw).todo == s.todo && FireStep(s, w, t, timer, raw).doing == s.doing
  {
  }

  /** Every step is one legal operation on each queue, and on one of them it is Keep. */
  lemma StepQueues(s: State, e: Event)
    requires Inv(s) && Allowed(s, e)
    ensures Legal(s.todo, s.doing, TodoOp(s, e), DoingOp(s, e))
    ensures Step(s, e).todo == Apply(s.todo, TodoOp(s, e)) && Step(s, e).doing == Apply(s.doing, DoingOp(s, e))
  {
    BothQueues(s);
    match e
    case Main =>
      OneManager(s);
      AllTallies(s);
      if s.manager.Took? { TaskWaits(s); }
      if s.manager.Dispatch? { OneRecord(s, s.manager.t); }
      MainQueues(s);
    case Work(w, raw, immediate) =>
      AllTallies(s);
      OneWorker(s, w);
      if s.workers[w].Token? { RequestWaits(s, w); OneRecord(s, s.doing[0]); }
      WorkQueues(s, w, raw, immediate);
    case BeginPush(t) =>
      OneCreating(s, t);
      NotQueued(s, t);
    case Choose(op) => ChooseQueues(s, op);
    case Fire(w, t, timer, raw) => FireQueues(s, w, t, timer, raw);
    case _ =>
  }

  /** The same for the last event of a run. */
  lemma RunQueues(workers: nat, es: seq<Event>, e: Event)
    requires workers >= 1 && Possible(Init(workers), es) && Allowed(After(Init(workers), es), e)
    ensures var s := After(Init(workers), es);
      && Legal(s.todo, s.doing, TodoOp(s, e), DoingOp(s, e))
      && Step(s, e).todo == Apply(s.todo, TodoOp(s, e)) && Step(s, e).doing == Apply(s.doing, DoingOp(s, e))
  {
    RunInv(workers, es);
    Open(After(Init(workers), es));
    StepQueues(After(Init(workers), es), e);
  }

  // ----- waiting in todo_queue -----

  lemma {:induction false} PrefixPossible(s: State, es: seq<Event>, m: nat)
    requires Possible(s, es) && m <= |es|
    ensures Possible(s, es[..m])
    decreases |es|
  {
    if m < |es| {
      PrefixPossible(s, es[..|es| - 1], m);
      assert es[..|es| - 1][..m] == es[..m];
    } else {
      assert es[..m] == es;
    }
  }

  /** The state after the first m events. */
  function StateAt(workers: nat, es: seq<Event>, m: nat): State
    requires Possible(Init(workers), es) && m <= |es|
  {
    PrefixPossible(Init(workers), es, m);
    After(Init(workers), es[..m])
  }

  /** The operations on todo_queue from the m-th event on. */
  function OpsFrom(s: State, es: seq<Event>, m: nat): seq<QueueOp>
    requires Possible(s, es) && m <= |es|
    decreases |es|
  {
    if m == |es| then [] else
    var before := es[..|es| - 1];
    OpsFrom(s, before, m) + [TodoOp(After(s, before), es[|es| - 1])]
  }

  function Shifts(ops: seq<QueueOp>): nat {
    if ops == [] then 0 else Shifts(ops[..|ops| - 1]) + (if ops[|ops| - 1].Shift? then 1 else 0)
  }

  function Unshifts(ops: seq<QueueOp>): nat {
    if ops == [] then 0 else Unshifts(ops[..|ops| - 1]) + (if ops[|ops| - 1].Unshift? then 1 else 0)
  }

  /** At no point have there been more shifts than tasks ahead: i at first, one more per unshift. */
  predicate StillAhead(ops: seq<QueueOp>, i: nat) {
    ops == [] || (StillAhead(ops[..|ops| - 1], i) && Shifts(ops) <= i + Unshifts(ops))
  }

  /** The queue after a sequence of operations none of which shifts an empty queue. */
  predicate Applicable(q: seq<Id>, ops: seq<QueueOp>)
    decreases |ops|, 0
  {
    ops == [] ||
    (Applicable(q, ops[..|ops| - 1]) && (ops[|ops| - 1].Shift? ==> ApplyAll(q, ops[..|ops| - 1]) != []))
  }

  function ApplyAll(q: seq<Id>, ops: seq<QueueOp>): seq<Id>
    requires Applicable(q, ops)
    decreases |ops|, 1
  {
    if ops == [] then q else Apply(ApplyAll(q, ops[..|ops| - 1]), ops[|ops| - 1])
  }

  lemma AppliedOne(q: seq<Id>, ops: seq<QueueOp>, op: QueueOp)
    requires Applicable(q, ops) && (op.Shift? ==> ApplyAll(q, ops) != [])
    ensures Applicable(q, ops + [op]) && ApplyAll(q, ops + [op]) == Apply(ApplyAll(q, ops), op)
  {
    assert (ops + [op])[..|ops|] == ops;
  }

  lemma RunExtends(workers: nat, es: seq<Event>)
    requires es != [] && Possible(Init(workers), es)
    ensures var before, e := es[..|es| - 1], es[|es| - 1];
            && Possible(Init(workers), before) && Allowed(After(Init(workers), before), e)
            && After(Init(workers), es) == Step(After(Init(workers), before), e)
  {
  }

  /** todo_queue after a run is what its operations make of the queue before. */
  lemma {:induction false} QueueFollowsOps(workers: nat, es: seq<Event>, m: nat)
    requires workers >= 1 && Possible(Init(workers), es) && m <= |es|
    ensures var q, ops := StateAt(workers, es, m).todo, OpsFrom(Init(workers), es, m);
            Applicable(q, ops) && ApplyAll(q, ops) == After(Init(workers), es).todo
    decreases |es|
  {
    if m == |es| {
      assert es[..m] == es;
    } else {
      var before, e := es[..|es| - 1], es[|es| - 1];
      assert before[..m] == es[..m];
      QueueFollowsOps(workers, before, m);
      RunExtends(workers, es);
      RunQueues(workers, before, e);
      AppliedOne(StateAt(workers, es, m).todo, OpsFrom(Init(workers), before, m), TodoOp(After(Init(workers), before), e));
    }
  }

  /** What was at index i of q stands in q', behind as many tasks as the operations left ahead of it. */
  predicate InTurn(q: seq<Id>, ops: seq<QueueOp>, q': seq<Id>, i: nat) {
    i < |q| && StillAhead(ops, i) ==>
      var at := i + Unshifts(ops) - Shifts(ops);
      0 <= at < |q'| && q'[at] == q[i]
  }

  lemma {:induction false} InLine(q: seq<Id>, ops: seq<QueueOp>, i: nat)
    requires Applicable(q, ops)
    ensures InTurn(q, ops, ApplyAll(q, ops), i)
  {
    if ops != [] { InLine(q, ops[..|ops| - 1], i); }
  }

  /**
   The task at index i keeps its place in line: while the shifts have not used up the tasks
   ahead of it, it stands at i plus the unshifts minus the shifts.
   */
  lemma KeepsItsTurn(workers: nat, es: seq<Event>, m: nat, i: nat)
    requires workers >= 1 && Possible(Init(workers), es) && m <= |es|
    ensures InTurn(StateAt(workers, es, m).todo, OpsFrom(Init(workers), es, m), After(Init(workers), es).todo, i)
  {
    QueueFollowsOps(workers, es, m);
    InLine(StateAt(workers, es, m).todo, OpsFrom(Init(workers), es, m), i);
  }

  /** Two tasks in q never change order: while the first waits in q', so does the second, and behind it. */
  predicate KeepsOrder(q: seq<Id>, ops: seq<QueueOp>, q': seq<Id>, i: nat, j: nat) {
    i < j < |q| && StillAhead(ops, i) ==>
      exists a, b :: 0 <= a < b < |q'| && q'[a] == q[i] && q'[b] == q[j]
  }

  lemma {:induction false} AheadOfMore(ops: seq<QueueOp>, i: nat, j: nat)
    requires i <= j && StillAhead(ops, i)
    ensures StillAhead(ops, j)
  {
    if ops != [] { AheadOfMore(ops[..|ops| - 1], i, j); }
  }

  lemma OrderKept(q: seq<Id>, ops: seq<QueueOp>, q': seq<Id>, i: nat, j: nat)
    requires InTurn(q, ops, q', i) && InTurn(q, ops, q', j)
    ensures KeepsOrder(q, ops, q', i, j)
  {
    if i < j < |q| && StillAhead(ops, i) {
      AheadOfMore(ops, i, j);
      var d := Unshifts(ops) - Shifts(ops);
      assert q'[i + d] == q[i] && q'[j + d] == q[j];
    }
  }

  lemma NeverSwap(workers: nat, es: seq<Event>, m: nat, i: nat, j: nat)
    requires workers >= 1 && Possible(Init(workers), es) && m <= |es|
    ensures KeepsOrder(StateAt(workers, es, m).todo, OpsFrom(Init(workers), es, m), After(Init(workers), es).todo, i, j)
  {
    KeepsItsTurn(workers, es, m, i);
    KeepsItsTurn(workers, es, m, j);
    OrderKept(StateAt(workers, es, m).todo, OpsFrom(Init(workers), es, m), After(Init(workers), es).todo, i, j);
  }

  /**
   Bounded wait: the shift that follows i + u earlier ones, where u counts the unshifts made
   since, hands the manager exactly the task that stood at index i.
   */
  lemma TakenInTurn(workers: nat, es: seq<Event>, m: nat, i: nat)
    requires workers >= 1 && Possible(Init(workers), es) && m <= |es|
    requires i < |StateAt(workers, es, m).todo| && StillAhead(OpsFrom(Init(workers), es, m), i)
    requires var ops := OpsFrom(Init(workers), es, m); Shifts(ops) == i + Unshifts(ops)
    requires After(Init(workers), es).manager.Took?
    ensures MainStep(After(Init(workers), es)).manager == Dispatch(StateAt(workers, es, m).todo[i])
  {
    var s := After(Init(workers), es);
    KeepsItsTurn(workers, es, m, i);
    RunInv(workers, es);
    Open(After(Init(workers), es));
    TaskWaits(s);
  }

  lemma WokenFirst(workers: nat, es: seq<Event>, n: SemId)
    requires workers >= 1 && Possible(Init(workers), es) && RunsAt(After(Init(workers), es).manager, WakePush(n, true))
    ensures var s := After(Init(workers), es);
            n in s.sems && s.sems[n].waiter.Some? && MainStep(s).todo == [s.sems[n].waiter.value] + s.todo
  {
    RunInv(workers, es);
    Open(After(Init(workers), es));
    assert Waking(After(Init(workers), es), n);
    RunQueues(workers, es, Main);
  }

  lemma {:induction false} NoShiftYet(ops: seq<QueueOp>)
    requires Shifts(ops) == 0
    ensures StillAhead(ops, 0)
  {
    if ops != [] { NoShiftYet(ops[..|ops| - 1]); }
  }

  /** A waiter posted with critical priority runs next, unless another critical post follows. */
  lemma CriticalRunsNext(workers: nat, es: seq<Event>, m: nat, n: SemId)
    requires workers >= 1 && Possible(Init(workers), es) && m < |es| && es[m] == Main
    requires var s := StateAt(workers, es, m); RunsAt(s.manager, WakePush(n, true))
    requires var ops := OpsFrom(Init(workers), es, m + 1); Shifts(ops) == 0 && Unshifts(ops) == 0
    requires After(Init(workers), es).manager.Took?
    ensures var s := StateAt(workers, es, m);
            && n in s.sems && s.sems[n].waiter.Some?
            && MainStep(After(Init(workers), es)).manager == Dispatch(s.sems[n].waiter.value)
  {
    PrefixPossible(Init(workers), es, m);
    PrefixPossible(Init(workers), es, m + 1);
    assert es[..m + 1][..m] == es[..m] && es[..m + 1][m] == es[m];
    WokenFirst(workers, es[..m], n);
    NoShiftYet(OpsFrom(Init(workers), es, m + 1));
    TakenInTurn(workers, es, m + 1, 0);
  }
}
