/** Whole turns of the manager loop, of a worker, and of a thread that creates a coroutine. */
module WholeTurns {
  import opened Actions
  import opened Scheduler
  import opened Seqs
  import opened Invariant
  import opened Runs
  import opened Paths
  import opened WorkerSteps

  // ----- the manager -----

  /** Where a coroutine goes on: at its first instruction, or where its context was saved. */
  function ResumePoint(k: Task): Point { if k.ctx.Saved? then k.ctx.point else User }

  /** The manager takes a unit and the task at the head, and that coroutine runs. */
  function Resumed(s: State): State
    requires s.todo != [] && s.todo[0] in s.tasks && s.sem > 0
  {
    var t := s.todo[0];
    var k := s.tasks[t];
    s.(sem := s.sem - 1, todo := s.todo[1..], curr := t, manager := Running(t, ResumePoint(k)),
       tasks := s.tasks[t := k.(ctx := NoContext, place := AtManager)])
  }

  const Turn := [Main] + [Main] + [Main]

  lemma TakesHead(s: State)
    requires Inv(s) && s.manager.Waiting? && s.sem > 0
    ensures s.todo != [] && s.todo[0] in s.tasks
    ensures var t := s.todo[0];
            Takes(s, [Main] + [Main], Resumed(s).(curr := s.curr, manager := Dispatch(t),
                                                  tasks := s.tasks[t := s.tasks[t].(place := AtManager)]))
  {
    MainKeeps(s);
    TaskWaits(MainStep(s));
    TakeOne(s, Main, s.(sem := s.sem - 1, manager := Took));
    var t := s.todo[0];
    TakeMore(s, [Main], s.(sem := s.sem - 1, manager := Took), Main,
         Resumed(s).(curr := s.curr, manager := Dispatch(t), tasks := s.tasks[t := s.tasks[t].(place := AtManager)]));
  }

  /** Every unit of manager_sem resumes the coroutine at the head of todo_queue, once, where it left off. */
  lemma ManagerTurn(s: State)
    requires Inv(s) && s.manager.Waiting? && s.sem > 0
    ensures s.todo != [] && s.todo[0] in s.tasks && Takes(s, Turn, Resumed(s))
  {
    TakesHead(s);
    var t, k := s.todo[0], s.tasks[s.todo[0]];
    BothQueues(s);
    OneRecord(s, t);
    var s2 := Resumed(s).(curr := s.curr, manager := Dispatch(t), tasks := s.tasks[t := k.(place := AtManager)]);
    Overwrites(s.tasks, t, k.(place := AtManager), k.(place := AtManager, ctx := NoContext));
    TakeMore(s, [Main] + [Main], s2, Main, Resumed(s));
  }

  /** A resumed caller reads the result in its record, through int, and goes on in its own code. */
  lemma ResultReturned(s: State)
    requires Inv(s) && s.manager.Waiting? && s.sem > 0 && s.todo != [] && Live(s, s.todo[0]) && IsDone(s.tasks[s.todo[0]].action)
    ensures var t := s.todo[0];
            var k, l := s.tasks[t], s.logs[t];
            var r := Ret(AsInt(k.ret.val), k.ret.err);
            Takes(s, Turn + [Main], Resumed(s).(manager := Running(t, User),
                                                logs := s.logs[t := l.(got := l.got + [r], trace := l.trace + [Got(r)])]))
  {
    ManagerTurn(s);
    var t := s.todo[0];
    BothQueues(s);
    OneRecord(s, t);
    var k, l := s.tasks[t], s.logs[t];
    var r := Ret(AsInt(k.ret.val), k.ret.err);
    TakeMore(s, Turn, Resumed(s), Main, Resumed(s).(manager := Running(t, User),
                                                logs := s.logs[t := l.(got := l.got + [r], trace := l.trace + [Got(r)])]));
  }

  /** An activated waiter always finds its unit: it takes it, and its crt_sem_wait returns. */
  lemma WaiterReturns(s: State)
    requires Inv(s) && s.manager.Waiting? && s.sem > 0 && s.todo != [] && Live(s, s.todo[0])
    requires s.tasks[s.todo[0]].action.SemActivation?
    ensures var t := s.todo[0];
            && s.tasks[t].ctx.Saved? && s.tasks[t].ctx.point.SemTest? && s.tasks[t].ctx.point.sem in s.sems
            && var n := s.tasks[t].ctx.point.sem;
               && s.sems[n].waiter == Some(t) && s.sems[n].value == 1
               && Takes(s, Turn + [Main], Resumed(s).(manager := Running(t, User),
                          sems := s.sems[n := s.sems[n].(waiter := None, value := 0, waits := s.sems[n].waits + 1)]))
  {
    ManagerTurn(s);
    BothQueues(s);
    var t := s.todo[0];
    OneRecord(s, t);
    AllSems(s);
    assert WaiterKnown(s, t);
    var n := s.tasks[t].ctx.point.sem;
    assert SemOk(s, n);
    TakeMore(s, Turn, Resumed(s), Main, Resumed(s).(manager := Running(t, User),
                          sems := s.sems[n := s.sems[n].(waiter := None, value := 0, waits := s.sems[n].waits + 1)]));
  }

  // ----- a worker -----

  /** Worker w has read a token and taken the request at the head of doing_queue. */
  function Taken(s: State, w: nat): State
    requires ReadEnabled(s, w) && s.doing != [] && s.doing[0] in s.tasks
  {
    var t := s.doing[0];
    s.(pipes := s.pipes[w := s.pipes[w] - 1], doing := s.doing[1..], workers := s.workers[w := Exec(t)],
       tasks := s.tasks[t := s.tasks[t].(place := AtWorker(w))])
  }

  lemma TakesRequest(s: State, w: nat, raw: Ret, immediate: bool)
    requires Inv(s) && ReadEnabled(s, w)
    ensures s.doing != [] && s.doing[0] in s.tasks
    ensures Takes(s, [Read(w)] + [Work(w, raw, immediate)], Taken(s, w))
  {
    var s1 := s.(pipes := s.pipes[w := s.pipes[w] - 1], workers := s.workers[w := Token]);
    TakeOne(s, Read(w), s1);
    StepKeeps(s, Read(w));
    AllTallies(s1);
    RequestWaits(s1, w);
    assert s1.workers[w := Exec(s.doing[0])] == s.workers[w := Exec(s.doing[0])];
    BothQueues(s);
    OneRecord(s, s.doing[0]);
    TakeMore(s, [Read(w)], s1, Work(w, raw, immediate), Taken(s, w));
  }

  /** The record of t with an answer to its request. */
  function Answer(k: Task, raw: Ret, place: Where): Task
    requires IsRequest(k.action)
  {
    k.(action := DoneAction(k.action), ret := Outcome(k.action, raw), place := place)
  }

  /** The history of t once its request is answered, and announced or not. */
  function Executed(k: Task, l: Log, raw: Ret, announced: nat): Log {
    l.(execs := l.execs + [Done(k.args, Outcome(k.action, raw))], notified := l.notified + announced)
  }

  /** The request of t is answered with raw, and t is announced to the manager. */
  function Announced(s: State, t: Id, raw: Ret): State
    requires Live(s, t) && IsRequest(s.tasks[t].action)
  {
    s.(todo := s.todo + [t], sem := s.sem + 1, tasks := s.tasks[t := Answer(s.tasks[t], raw, InTodo)],
       logs := s.logs[t := Executed(s.tasks[t], s.logs[t], raw, 1)])
  }

  /** ... and before worker w announces it. */
  function AnswerKept(s: State, t: Id, raw: Ret, w: nat, next: Worker): State
    requires Live(s, t) && IsRequest(s.tasks[t].action) && w < |s.workers|
  {
    s.(tasks := s.tasks[t := Answer(s.tasks[t], raw, AtWorker(w))],
       logs := s.logs[t := Executed(s.tasks[t], s.logs[t], raw, 0)], workers := s.workers[w := next])
  }

  /** coroutine_notify_manager on worker w, after events es. */
  lemma Announces(s: State, es: seq<Event>, b: State, t: Id, raw: Ret, w: nat, inner: bool, e: Event)
    requires Live(b, t) && IsRequest(b.tasks[t].action) && w < |b.workers|
    requires Takes(s, es, AnswerKept(b, t, raw, w, Notify(t, inner))) && e == Work(w, raw, inner)
    ensures Takes(s, es + [e] + [e], Announced(b, t, raw).(workers := b.workers[w := if inner then Returned(t, 1) else Idle]))
  {
    var s1 := AnswerKept(b, t, raw, w, Notify(t, inner));
    var s2 := Announced(b, t, raw).(sem := b.sem, workers := b.workers[w := Posting(t, inner)]);
    Overwrites(b.tasks, t, s1.tasks[t], s2.tasks[t]);
    TakeMore(s, es, s1, e, s2);
    TakeMore(s, es + [e], s2, e, Announced(b, t, raw).(workers := b.workers[w := if inner then Returned(t, 1) else Idle]));
  }

  /** Worker w has taken the request at the head of doing_queue and is idle again. */
  function Relieved(s: State, w: nat): State
    requires ReadEnabled(s, w) && s.doing != [] && s.doing[0] in s.tasks
  {
    Taken(s, w).(workers := s.workers)
  }

  /** The handler of a request that is answered at once. */
  lemma Handles(s: State, w: nat, raw: Ret, immediate: bool, next: Worker)
    requires Inv(s) && ReadEnabled(s, w) && s.doing != [] && Live(s, s.doing[0]) && IsRequest(s.tasks[s.doing[0]].action)
    requires var a := s.tasks[s.doing[0]].action;
             if IsSynchronous(a) then next == Returned(s.doing[0], 0)
             else a.TimeoutConnect? && immediate && next == Notify(s.doing[0], true)
    ensures Takes(s, [Read(w)] + [Work(w, raw, immediate)] + [Work(w, raw, immediate)],
                  AnswerKept(Relieved(s, w), s.doing[0], raw, w, next))
  {
    var t, e := s.doing[0], Work(w, raw, immediate);
    TakesRequest(s, w, raw, immediate);
    Overwrites(s.tasks, t, Taken(s, w).tasks[t], Answer(s.tasks[t], raw, AtWorker(w)));
    TakeMore(s, [Read(w)] + [e], Taken(s, w), e, AnswerKept(Relieved(s, w), t, raw, w, next));
  }

  /** What a worker does for a request that is answered at once: five steps after reading a token. */
  function Service(w: nat, raw: Ret, immediate: bool): seq<Event> {
    var e := Work(w, raw, immediate);
    [Read(w)] + [e] + [e] + [e] + [e] + [e]
  }

  lemma ServesAtOnce(s: State, w: nat, raw: Ret)
    requires Inv(s) && ReadEnabled(s, w) && s.doing != [] && Live(s, s.doing[0])
    requires var a := s.tasks[s.doing[0]].action; a.DiskOpen? || a.DiskRead? || a.DiskWrite? || a.BlockedConnect? || a.BgRun?
    ensures Takes(s, Service(w, raw, false), Announced(Relieved(s, w), s.doing[0], raw))
  {
    var t, e, b := s.doing[0], Work(w, raw, false), Relieved(s, w);
    Handles(s, w, raw, false, Returned(t, 0));
    assert AnswerKept(b, t, raw, w, Returned(t, 0)).workers[w := Notify(t, false)] == b.workers[w := Notify(t, false)];
    TakeMore(s, [Read(w)] + [e] + [e], AnswerKept(b, t, raw, w, Returned(t, 0)), e, AnswerKept(b, t, raw, w, Notify(t, false)));
    Announces(s, [Read(w)] + [e] + [e] + [e], b, t, raw, w, false, e);
    assert b.workers[w := Idle] == s.workers;
  }

  /** A connection that does not have to wait is announced inside do_task, once. */
  lemma ConnectsAtOnce(s: State, w: nat, raw: Ret)
    requires Inv(s) && ReadEnabled(s, w) && s.doing != [] && Live(s, s.doing[0]) && s.tasks[s.doing[0]].action.TimeoutConnect?
    ensures Takes(s, Service(w, raw, true), Announced(Relieved(s, w), s.doing[0], raw))
  {
    var t, e, b := s.doing[0], Work(w, raw, true), Relieved(s, w);
    Handles(s, w, raw, true, Notify(t, true));
    Announces(s, [Read(w)] + [e] + [e], b, t, raw, w, true, e);
    var s5 := Announced(b, t, raw).(workers := b.workers[w := Returned(t, 1)]);
    assert s5.workers[w := Idle] == s.workers;
    TakeMore(s, [Read(w)] + [e] + [e] + [e] + [e], s5, e, Announced(b, t, raw));
  }

  /** Any other request leaves its watchers behind, and the worker goes on without it. */
  lemma StartsWatching(s: State, w: nat, raw: Ret)
    requires Inv(s) && ReadEnabled(s, w) && s.doing != [] && Live(s, s.doing[0])
    requires var a := s.tasks[s.doing[0]].action;
             a.SockRead? || a.SockWrite? || a.TimeoutConnect? || a.Msleep? || a.TcpAccept?
    ensures var t, e := s.doing[0], Work(w, raw, false);
            var k := s.tasks[t];
            Takes(s, [Read(w)] + [e] + [e] + [e],
                  Relieved(s, w).(tasks := s.tasks[t := k.(place := Watched)], watch := s.watch[t := Armed(k, w)]))
  {
    var t, e := s.doing[0], Work(w, raw, false);
    var k := s.tasks[t];
    TakesRequest(s, w, raw, false);
    var end := Relieved(s, w).(tasks := s.tasks[t := k.(place := Watched)], watch := s.watch[t := Armed(k, w)]);
    Overwrites(s.tasks, t, Taken(s, w).tasks[t], k.(place := Watched));
    TakeMore(s, [Read(w)] + [e], Taken(s, w), e, end.(workers := s.workers[w := Returned(t, 1)]));
    assert s.workers[w := Returned(t, 1)][w := Idle] == s.workers;
    TakeMore(s, [Read(w)] + [e] + [e], end.(workers := s.workers[w := Returned(t, 1)]), e, end);
  }

  /** A watcher that fires and ends the request: no watcher stays, and the task is announced. */
  lemma WatcherAnnounces(s: State, w: nat, t: Id, timer: bool, raw: Ret)
    requires Inv(s) && Enabled(s, Fire(w, t, timer, Some(raw)))
    ensures Live(s, t) && IsRequest(s.tasks[t].action)
    ensures var e := Work(w, raw, false);
            Takes(s, [Fire(w, t, timer, Some(raw))] + [e] + [e], Announced(s, t, raw).(watch := s.watch - {t}))
  {
    OneWatch(s, t);
    OneRecord(s, t);
    var b := s.(watch := s.watch - {t});
    TakeOne(s, Fire(w, t, timer, Some(raw)), AnswerKept(b, t, raw, w, Notify(t, false)));
    Announces(s, [Fire(w, t, timer, Some(raw))], b, t, raw, w, false, Work(w, raw, false));
    assert b.workers[w := Idle] == s.workers;
  }

  // ----- crt_create in another thread -----

  lemma CreatorQueues(s: State)
    requires Inv(s)
    ensures var u := |s.logs|;
            && u !in s.tasks
            && Takes(s, [Begin] + [BeginPush(u)] + [BeginPost],
                     s.(cid := (s.cid + 1) % TWO_TO_THE_64, todo := s.todo + [u], sem := s.sem + 1,
                        tasks := s.tasks[u := Task(NewCoroutine, NoRequest, Ret(0, 0), NoContext, InTodo)],
                        logs := s.logs + [EmptyLog]))
  {
    FreshNumber(s);
    var u := |s.logs|;
    var born := Task(NewCoroutine, NoRequest, Ret(0, 0), NoContext, InTodo);
    var s1 := s.(cid := (s.cid + 1) % TWO_TO_THE_64, tasks := s.tasks[u := NewTask(true)], logs := s.logs + [EmptyLog],
                 creating := s.creating + {u});
    TakeOne(s, Begin, s1);
    assert u !in s.creating by { if u in s.creating { OneCreating(s, u); } }
    Overwrites(s.tasks, u, NewTask(true), born);
    assert s1.creating - {u} == s.creating;
    var s2 := s1.(todo := s.todo + [u], tasks := s.tasks[u := born], creating := s.creating, unposted := s.unposted + 1);
    TakeMore(s, [Begin], s1, BeginPush(u), s2);
    TakeMore(s, [Begin] + [BeginPush(u)], s2, BeginPost, s2.(unposted := s.unposted, sem := s.sem + 1));
  }
}
