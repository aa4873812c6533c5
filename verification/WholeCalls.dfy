/**
 Whole calls. From any reachable state, the steps of one library call, of one turn of the manager
 loop, of one request on a worker, and of one creation, taken together, change this and nothing else.
*/
module WholeCalls {
  import opened Actions
  import opened Scheduler
  import opened Seqs
  import opened Invariant
  import opened Paths

  /** The coroutine that runs, in its own code. */
  predicate AtUser(s: State, c: Id) { Live(s, c) && s.curr == c && s.manager == Running(c, User) }

  /** The history of c once it has chosen op. */
  function Noted(s: State, c: Id, op: Op): Log
    requires Live(s, c)
  {
    var l := s.logs[c];
    l.(trace := l.trace + [Issued(op)], ops := l.ops + 1)
  }

  lemma Runner(s: State)
    requires Inv(s) && s.manager.Running? && s.manager.at == User
    ensures AtUser(s, s.curr) && s.tasks[s.curr].place.AtManager? && s.tasks[s.curr].ctx.NoContext?
  {
    OneManager(s);
    OneRecord(s, s.curr);
  }

  /** The choice of op, and n steps of the manager thread. */
  function Steps(op: Op, n: nat): seq<Event> { if n == 0 then [Choose(op)] else Steps(op, n - 1) + [Main] }

  /** The running coroutine may choose op, and n steps of the manager thread later the state is s'. */
  ghost predicate Does(s: State, op: Op, n: nat, s': State) { Takes(s, Steps(op, n), s') }

  lemma First(s: State, op: Op, s': State)
    requires ChooseEnabled(s, op) && Disciplined(s, op) && ChooseStep(s, op) == s'
    ensures Does(s, op, 0, s')
  {
    TakeOne(s, Choose(op), s');
  }

  lemma Next(s: State, op: Op, n: nat, s1: State, s2: State)
    requires Does(s, op, n, s1) && MainEnabled(s1) && MainStep(s1) == s2
    ensures Does(s, op, n + 1, s2)
  {
    TakeMore(s, Steps(op, n), s1, Main, s2);
  }

  /** The last two steps of every call that suspends: save the context, and back to the head of the manager loop. */
  lemma Suspends(s: State, op: Op, n: nat, s1: State, c: Id, p: Point)
    requires Does(s, op, n, s1) && Live(s1, c) && s1.curr == c && s1.manager == Running(c, Swap(p))
    requires !s1.tasks[c].action.FinishedCoroutine?
    ensures Does(s, op, n + 2, s1.(manager := Waiting, tasks := s1.tasks[c := s1.tasks[c].(ctx := Saved(p))]))
  {
    var s2 := s1.(manager := Check(c), tasks := s1.tasks[c := s1.tasks[c].(ctx := Saved(p))]);
    Next(s, op, n, s1, s2);
    Next(s, op, n + 1, s2, s2.(manager := Waiting));
  }

  // ----- calls of a coroutine -----

  /**
   A blocking call: the record goes to doing_queue, the next pipe in turn gets a token, and the
   caller is suspended at the point where it will read its result.
  */
  function Called(s: State, c: Id, q: Request): State
    requires AtUser(s, c) && s.pipes != []
  {
    var i := s.bgId % |s.pipes|;
    var l := Noted(s, c, Call(q));
    s.(doing := s.doing + [c], pipes := s.pipes[i := s.pipes[i] + 1], bgId := (s.bgId + 1) % TWO_TO_THE_64,
       tasks := s.tasks[c := s.tasks[c].(action := q.action, args := q, ctx := Saved(GetRet), place := InDoing)],
       logs := s.logs[c := l.(issued := l.issued + [q])], manager := Waiting)
  }

  lemma CallPublishes(s: State, c: Id, q: Request, s2: State)
    requires AtUser(s, c) && s.pipes != [] && IsRequest(q.action)
    requires s2 == Called(s, c, q).(bgId := s.bgId, pipes := s.pipes, manager := Running(c, ReqWrite),
                                    tasks := s.tasks[c := s.tasks[c].(action := q.action, args := q, place := InDoing)])
    ensures Does(s, Call(q), 1, s2)
  {
    var s1 := s2.(doing := s.doing, tasks := s.tasks[c := s.tasks[c].(action := q.action, args := q)],
                  manager := Running(c, ReqPush));
    First(s, Call(q), s1);
    Overwrites(s.tasks, c, s1.tasks[c], s2.tasks[c]);
    Next(s, Call(q), 0, s1, s2);
  }

  lemma CallSuspends(s: State, q: Request)
    requires Inv(s) && s.manager.Running? && s.manager.at == User && IsRequest(q.action)
    ensures AtUser(s, s.curr) && s.pipes != []
    ensures Does(s, Call(q), 4, Called(s, s.curr, q))
  {
    Runner(s);
    AllTallies(s);
    var c, end := s.curr, Called(s, s.curr, q);
    var k := s.tasks[c].(action := q.action, args := q, place := InDoing);
    var s2 := end.(bgId := s.bgId, pipes := s.pipes, manager := Running(c, ReqWrite), tasks := s.tasks[c := k]);
    CallPublishes(s, c, q, s2);
    var s3 := s2.(bgId := end.bgId, pipes := end.pipes, manager := Running(c, Swap(GetRet)));
    Next(s, Call(q), 1, s2, s3);
    Suspends(s, Call(q), 2, s3, c, GetRet);
    Overwrites(s.tasks, c, k, end.tasks[c]);
  }

  /** crt_sched_yield: to the end of todo_queue, announced, suspended. */
  function Yielded(s: State, c: Id): State
    requires AtUser(s, c)
  {
    s.(todo := s.todo + [c], sem := s.sem + 1, manager := Waiting,
       tasks := s.tasks[c := s.tasks[c].(action := SchedYield, ctx := Saved(User), place := InTodo)],
       logs := s.logs[c := Noted(s, c, Yield)])
  }

  lemma YieldSuspends(s: State)
    requires Inv(s) && s.manager.Running? && s.manager.at == User
    ensures AtUser(s, s.curr)
    ensures Does(s, Yield, 4, Yielded(s, s.curr))
  {
    Runner(s);
    var c, end := s.curr, Yielded(s, s.curr);
    var k := s.tasks[c].(action := SchedYield);
    var s1 := s.(tasks := s.tasks[c := k], logs := end.logs, manager := Running(c, YieldPush));
    var s2 := s1.(todo := end.todo, tasks := s.tasks[c := k.(place := InTodo)], manager := Running(c, YieldPost));
    First(s, Yield, s1);
    Overwrites(s.tasks, c, k, k.(place := InTodo));
    Next(s, Yield, 0, s1, s2);
    Next(s, Yield, 1, s2, s2.(sem := end.sem, manager := Running(c, Swap(User))));
    Suspends(s, Yield, 2, s2.(sem := end.sem, manager := Running(c, Swap(User))), c, User);
    Overwrites(s.tasks, c, k.(place := InTodo), end.tasks[c]);
  }

  /** crt_sem_wait that finds a unit: it takes it and goes on. */
  lemma WaitTakes(s: State, n: SemId)
    requires Inv(s) && s.manager.Running? && s.manager.at == User && n in s.sems && s.sems[n].waiter.None? && s.sems[n].value > 0
    ensures AtUser(s, s.curr)
    ensures var m, c := s.sems[n], s.curr;
            Does(s, SemWait(n), 1,
                  s.(sems := s.sems[n := m.(value := m.value - 1, waits := m.waits + 1)],
                     logs := s.logs[c := Noted(s, c, SemWait(n))]))
  {
    Runner(s);
    var c := s.curr;
    var s1 := s.(logs := s.logs[c := Noted(s, c, SemWait(n))], manager := Running(c, SemTest(n)));
    First(s, SemWait(n), s1);
    var m := s.sems[n];
    Next(s, SemWait(n), 0, s1,
             s1.(manager := Running(c, User), sems := s.sems[n := m.(value := m.value - 1, waits := m.waits + 1)]));
  }

  /** crt_sem_wait that finds none: the caller is suspended, and only the semaphore knows it. */
  lemma WaitSuspends(s: State, n: SemId)
    requires Inv(s) && s.manager.Running? && s.manager.at == User && n in s.sems && s.sems[n].waiter.None? && s.sems[n].value == 0
    ensures AtUser(s, s.curr)
    ensures var c := s.curr;
            Does(s, SemWait(n), 3,
                  s.(sems := s.sems[n := s.sems[n].(waiter := Some(c))], manager := Waiting,
                     tasks := s.tasks[c := s.tasks[c].(ctx := Saved(SemTest(n)), place := AtSem(n))],
                     logs := s.logs[c := Noted(s, c, SemWait(n))]))
  {
    Runner(s);
    OneRecord(s, s.curr);
    var c := s.curr;
    var s1 := s.(logs := s.logs[c := Noted(s, c, SemWait(n))], manager := Running(c, SemTest(n)));
    var s2 := s1.(sems := s.sems[n := s.sems[n].(waiter := Some(c))], tasks := s.tasks[c := s.tasks[c].(place := AtSem(n))],
                  manager := Running(c, Swap(SemTest(n))));
    First(s, SemWait(n), s1);
    Next(s, SemWait(n), 0, s1, s2);
    Suspends(s, SemWait(n), 1, s2, c, SemTest(n));
    Overwrites(s.tasks, c, s2.tasks[c], s.tasks[c].(ctx := Saved(SemTest(n)), place := AtSem(n)));
  }

  /** crt_sem_post and the critical post without a waiter: one unit more. */
  lemma PostCounts(s: State, n: SemId, front: bool)
    requires Inv(s) && s.manager.Running? && s.manager.at == User
    requires Disciplined(s, SemPost(n, front)) && s.sems[n].waiter.None?
    ensures AtUser(s, s.curr)
    ensures var m, c := s.sems[n], s.curr;
            Does(s, SemPost(n, front), 0,
                  s.(sems := s.sems[n := m.(value := m.value + 1, posts := m.posts + 1)],
                     logs := s.logs[c := Noted(s, c, SemPost(n, front))]))
  {
    Runner(s);
    var m, c := s.sems[n], s.curr;
    First(s, SemPost(n, front),
          s.(sems := s.sems[n := m.(value := m.value + 1, posts := m.posts + 1)],
             logs := s.logs[c := Noted(s, c, SemPost(n, front))]));
  }

  /** ... and with a waiter u: it is marked, put at the end or the front of todo_queue, and announced. */
  function Woken(s: State, c: Id, n: SemId, front: bool, u: Id): State
    requires AtUser(s, c) && n in s.sems && u in s.tasks
  {
    var m := s.sems[n];
    s.(sems := s.sems[n := m.(value := m.value + 1, posts := m.posts + 1)],
       todo := if front then [u] + s.todo else s.todo + [u], sem := s.sem + 1,
       tasks := s.tasks[u := s.tasks[u].(action := SemActivation, place := InTodo)],
       logs := s.logs[c := Noted(s, c, SemPost(n, front))])
  }

  lemma PostWakes(s: State, n: SemId, front: bool, u: Id)
    requires Inv(s) && s.manager.Running? && s.manager.at == User
    requires Disciplined(s, SemPost(n, front)) && s.sems[n].waiter == Some(u)
    ensures AtUser(s, s.curr) && u in s.tasks && u != s.curr
    ensures Does(s, SemPost(n, front), 2, Woken(s, s.curr, n, front, u))
  {
    Runner(s);
    OneSem(s, n);
    var c, end := s.curr, Woken(s, s.curr, n, front, u);
    var marked := s.tasks[u].(action := SemActivation);
    var s1 := s.(sems := end.sems, logs := end.logs, tasks := s.tasks[u := marked], manager := Running(c, WakePush(n, front)));
    var s2 := end.(sem := s.sem, manager := Running(c, WakePost));
    First(s, SemPost(n, front), s1);
    Overwrites(s.tasks, u, marked, end.tasks[u]);
    Next(s, SemPost(n, front), 0, s1, s2);
    Next(s, SemPost(n, front), 1, s2, end);
  }

  /** crt_create in a coroutine: a new record at the end of todo_queue, announced; the creator goes on. */
  function Bred(s: State, c: Id): State
    requires AtUser(s, c)
  {
    var u := |s.logs|;
    s.(cid := (s.cid + 1) % TWO_TO_THE_64, todo := s.todo + [u], sem := s.sem + 1,
       tasks := s.tasks[u := Task(NewCoroutine, NoRequest, Ret(0, 0), NoContext, InTodo)],
       logs := s.logs[c := Noted(s, c, Create)] + [EmptyLog])
  }

  lemma CreateQueues(s: State)
    requires Inv(s) && s.manager.Running? && s.manager.at == User
    ensures AtUser(s, s.curr) && |s.logs| !in s.tasks
    ensures Does(s, Create, 2, Bred(s, s.curr))
  {
    Runner(s);
    FreshNumber(s);
    var c, u, end := s.curr, |s.logs|, Bred(s, s.curr);
    var s1 := end.(todo := s.todo, sem := s.sem, tasks := s.tasks[u := NewTask(false)], manager := Running(c, BornPush(u)));
    First(s, Create, s1);
    Overwrites(s.tasks, u, NewTask(false), end.tasks[u]);
    Next(s, Create, 0, s1, end.(sem := s.sem, manager := Running(c, BornPost)));
    Next(s, Create, 1, end.(sem := s.sem, manager := Running(c, BornPost)), end);
  }

  /** crt_exit: the record is gone, the coroutine counted, and the manager goes on. */
  function Gone(s: State, c: Id): State
    requires AtUser(s, c)
  {
    s.(tasks := s.tasks - {c}, ran := (s.ran + 1) % TWO_TO_THE_64, manager := Waiting,
       logs := s.logs[c := Noted(s, c, Exit).(exited := true, frees := 1)])
  }

  lemma ExitFrees(s: State)
    requires Inv(s) && s.manager.Running? && s.manager.at == User
    ensures AtUser(s, s.curr)
    ensures Does(s, Exit, 2, Gone(s, s.curr))
  {
    Runner(s);
    OneRecord(s, s.curr);
    var c, end := s.curr, Gone(s, s.curr);
    var l := Noted(s, c, Exit).(exited := true);
    var s1 := s.(tasks := s.tasks[c := s.tasks[c].(action := FinishedCoroutine)], logs := s.logs[c := l], manager := Check(c));
    First(s, Exit, s1);
    Next(s, Exit, 0, s1, s1.(manager := Dispatch(c)));
    assert s1.tasks - {c} == end.tasks;
    assert s1.logs[c := l.(frees := 1)] == end.logs;
    Next(s, Exit, 1, s1.(manager := Dispatch(c)), end);
  }

  /** A coroutine that returns without crt_exit: the manager goes on, and nobody has its record. */
  lemma ReturnAbandons(s: State)
    requires Inv(s) && s.manager.Running? && s.manager.at == User
    ensures AtUser(s, s.curr)
    ensures var c := s.curr;
            Does(s, Return, 1,
                  s.(tasks := s.tasks[c := s.tasks[c].(place := Abandoned)], manager := Waiting,
                     logs := s.logs[c := Noted(s, c, Return)]))
  {
    Runner(s);
    OneRecord(s, s.curr);
    var c := s.curr;
    var s1 := s.(tasks := s.tasks[c := s.tasks[c].(place := Abandoned)], logs := s.logs[c := Noted(s, c, Return)],
                 manager := Check(c));
    First(s, Return, s1);
    Next(s, Return, 0, s1, s1.(manager := Waiting));
  }
}
