/**
 The scheduler as a transition system. One manager thread runs coroutines, W background
 workers serve requests, and other threads may create coroutines. One event is one atomic
 step: a lock-protected queue operation, a semaphore or pipe operation, a libev callback, or
 a stretch of code that touches only memory its thread owns.
*/
module Scheduler {
  import opened Actions

  type Id = nat
  type SemId = nat

  /** Where the running coroutine stands: in user code, or inside one of the crt_ calls. */
  datatype Point =
    | User                                // in the coroutine's own code
    | ReqPush                             // request filled in, next Push(doing_queue)
    | ReqWrite                            // published, next write to a worker's pipe
    | YieldPush | YieldPost               // crt_sched_yield: Push(todo_queue), then sem_post
    | WakePush(sem: SemId, front: bool)   // crt_sem_post found a waiter: Push or Unshift it
    | WakePost                            // ... then sem_post
    | BornPush(child: Id) | BornPost      // crt_create: Push(todo_queue), then sem_post
    | SemTest(sem: SemId)                 // head of the loop in crt_sem_wait
    | GetRet                              // resumed, next coroutine_get_retval
    | Swap(next: Point)                   // next swapcontext to the manager, to continue at `next`

  /** `task_context`: empty, or the point at which a swap will continue the coroutine. */
  datatype Context = NoContext | Saved(point: Point)

  /** Bookkeeping only: no step reads it. It names the one holder of a task record. */
  datatype Where =
    | Unborn(external: bool) | InTodo | InDoing | AtWorker(w: nat) | Watched
    | AtSem(k: SemId) | AtManager | Abandoned

  datatype Task = Task(action: Action, args: Request, ret: Ret, ctx: Context, place: Where)

  /** `crt_sem_t`, with counts of its initial value, posts and completed waits. */
  datatype Sem = Sem(value: int, waiter: Option<Id>, init: nat, posts: nat, waits: nat)

  datatype Option<T> = None | Some(value: T)

  /** The manager thread; `Running` means that it executes the coroutine's stack. */
  datatype Manager =
    | Waiting | Took | Dispatch(t: Id) | Running(t: Id, at: Point) | Check(t: Id) | Aborted

  /** A worker thread: in ev_run, or inside new_event_handler or a watcher callback. */
  datatype Worker =
    | Idle
    | Token                               // pipe token read, next Shift(doing_queue)
    | Exec(t: Id)                         // next the handler that do_task selects
    | Returned(t: Id, ret: int)           // do_task has returned `ret`
    | Notify(t: Id, inner: bool)          // next Push(todo_queue); inner: called inside do_task
    | Posting(t: Id, inner: bool)         // next sem_post
    | Dead                                // abort() or a failed assertion

  /** The watchers of one task in the loop of worker `w`. */
  datatype Watch = Watch(w: nat, io: bool, timer: bool)

  /** Operations a coroutine may choose. `Return` is a plain return without crt_exit. */
  datatype Op =
    | Call(req: Request) | Yield
    | SemInit(k: SemId, v: nat) | SemWait(k: SemId) | SemPost(k: SemId, front: bool)
    | Create | Exit | Return

  datatype Entry = Issued(op: Op) | Got(ret: Ret)
  datatype Exec = Done(req: Request, ret: Ret)

  /** History of one coroutine, kept after it is freed. */
  datatype Log = Log(trace: seq<Entry>, ops: nat, issued: seq<Request>, execs: seq<Exec>,
                     got: seq<Ret>, notified: nat, exited: bool, frees: nat)

  datatype State = State(
    cid: nat, ran: nat, bgId: nat,        // info counters, all uint64_t
    sem: nat, pipes: seq<nat>,            // manager_sem and unread tokens of each pipe
    todo: seq<Id>, doing: seq<Id>,
    tasks: map<Id, Task>,                 // allocated task records
    curr: Id,                             // curr_task_ptr
    manager: Manager, workers: seq<Worker>, watch: map<Id, Watch>,
    sems: map<SemId, Sem>,
    creating: set<Id>, unposted: nat,     // other threads inside crt_create
    logs: seq<Log>)

  datatype Event =
    | Main                                // the manager thread's next step
    | Choose(op: Op)                      // the running coroutine's next operation
    | Read(w: nat)                        // worker w reads a token from its pipe
    | Work(w: nat, raw: Ret, immediate: bool)          // worker w's next step in a handler
    | Fire(w: nat, t: Id, timer: bool, fired: Option<Ret>) // libev runs a callback; None: would block
    | Begin                               // another thread enters crt_create
    | BeginPush(t: Id) | BeginPost

  // ----- the initial state -----

  function Init(workers: nat): State {
    State(0, 0, 0, 0, seq(workers, _ => 0), [], [], map[], 0, Waiting,
          seq(workers, _ => Idle), map[], map[], {}, 0, [])
  }

  const EmptyLog := Log([], 0, [], [], [], 0, false, 0)
  const NoRequest := Request(NewCoroutine, 0, 0)

  function NewTask(external: bool): Task {
    Task(NewCoroutine, NoRequest, Ret(0, 0), NoContext, Unborn(external))
  }

  // ----- the manager thread and the coroutine it runs -----

  predicate Live(s: State, t: Id) { t in s.tasks && t < |s.logs| }

  function Crash(s: State): State { s.(manager := Aborted) }

  /** Enabled: sem_wait needs a unit; user code goes on only by choosing an operation. */
  predicate MainEnabled(s: State) {
    match s.manager
    case Waiting => s.sem > 0
    case Running(_, at) => at != User
    case Aborted => false
    case _ => true
  }

  function MainStep(s: State): State
    requires MainEnabled(s)
  {
    match s.manager
    case Waiting => s.(sem := s.sem - 1, manager := Took)
    case Took =>
      if s.todo == [] || !Live(s, s.todo[0]) then Crash(s) else
      var t := s.todo[0];
      s.(todo := s.todo[1..], tasks := s.tasks[t := s.tasks[t].(place := AtManager)], manager := Dispatch(t))
    case Dispatch(t) => if Live(s, t) then DispatchStep(s, t) else Crash(s)
    case Check(t) =>
      if !Live(s, t) then Crash(s)
      else if s.tasks[t].action.FinishedCoroutine? then s.(manager := Dispatch(t))
      else s.(manager := Waiting)
    case Running(t, at) => if Live(s, s.curr) then Continue(s, t, at) else Crash(s)
  }

  /** The switch of the manager loop. */
  function DispatchStep(s: State, t: Id): State
    requires Live(s, t)
  {
    var k := s.tasks[t];
    if k.action.NewCoroutine? then
      s.(curr := t, manager := Running(t, User))
    else if k.action.FinishedCoroutine? then
      if !Live(s, s.curr) then Crash(s) else
      var l := s.logs[s.curr];
      s.(tasks := s.tasks - {s.curr}, ran := Inc64(s.ran), manager := Waiting,
         logs := s.logs[s.curr := l.(frees := l.frees + 1)])
    else if IsResumable(k.action) && k.ctx.Saved? then
      s.(curr := t, tasks := s.tasks[t := k.(ctx := NoContext)], manager := Running(t, k.ctx.point))
    else Crash(s)
  }

  /** The next step of the coroutine inside a crt_ call. */
  function Continue(s: State, t: Id, at: Point): State
    requires Live(s, s.curr) && at != User
  {
    var c := s.curr;
    var k := s.tasks[c];
    match at
    case ReqPush =>
      s.(doing := s.doing + [c], tasks := s.tasks[c := k.(place := InDoing)], manager := Running(t, ReqWrite))
    case ReqWrite =>
      if |s.pipes| == 0 then Crash(s) else
      var i := s.bgId % |s.pipes|;
      s.(bgId := Inc64(s.bgId), pipes := s.pipes[i := s.pipes[i] + 1], manager := Running(t, Swap(GetRet)))
    case YieldPush =>
      s.(todo := s.todo + [c], tasks := s.tasks[c := k.(place := InTodo)], manager := Running(t, YieldPost))
    case YieldPost => s.(sem := s.sem + 1, manager := Running(t, Swap(User)))
    case WakePush(n, front) =>
      if n !in s.sems || s.sems[n].waiter.None? || !Live(s, s.sems[n].waiter.value) then Crash(s) else
      var u := s.sems[n].waiter.value;
      s.(todo := if front then [u] + s.todo else s.todo + [u],
         tasks := s.tasks[u := s.tasks[u].(place := InTodo)], manager := Running(t, WakePost))
    case WakePost => s.(sem := s.sem + 1, manager := Running(t, User))
    case BornPush(u) =>
      if !Live(s, u) then Crash(s) else
      s.(todo := s.todo + [u], tasks := s.tasks[u := s.tasks[u].(place := InTodo)], manager := Running(t, BornPost))
    case BornPost => s.(sem := s.sem + 1, manager := Running(t, User))
    case SemTest(n) =>
      if n !in s.sems then Crash(s) else
      var m := s.sems[n];
      if m.value > 0 then
        s.(sems := s.sems[n := m.(waiter := None, value := m.value - 1, waits := m.waits + 1)],
           manager := Running(t, User))
      else
        s.(sems := s.sems[n := m.(waiter := Some(c))], tasks := s.tasks[c := k.(place := AtSem(n))],
           manager := Running(t, Swap(SemTest(n))))
    case GetRet =>
      var l := s.logs[c];
      var r := Delivered(k.ret);
      s.(logs := s.logs[c := l.(got := l.got + [r], trace := l.trace + [Got(r)])], manager := Running(t, User))
    case Swap(p) =>
      s.(tasks := s.tasks[c := k.(ctx := Saved(p))], manager := Check(t))
  }

  /** The running coroutine picks its next operation. */
  predicate ChooseEnabled(s: State, op: Op) {
    && s.manager.Running? && s.manager.at == User
    && (op.Call? ==> IsRequest(op.req.action))
  }

  function ChooseStep(s: State, op: Op): State
    requires ChooseEnabled(s, op)
  {
    if !Live(s, s.curr) then Crash(s) else
    var c, t := s.curr, s.manager.t;
    var k, l := s.tasks[c], s.logs[c].(trace := s.logs[c].trace + [Issued(op)], ops := s.logs[c].ops + 1);
    var noted := s.(logs := s.logs[c := l]);
    match op
    case Call(q) =>
      s.(logs := s.logs[c := l.(issued := l.issued + [q])],
         tasks := s.tasks[c := k.(action := q.action, args := q)], manager := Running(t, ReqPush))
    case Yield =>
      noted.(tasks := s.tasks[c := k.(action := SchedYield)], manager := Running(t, YieldPush))
    case SemInit(n, v) =>
      noted.(sems := s.sems[n := Sem(v, None, v, 0, 0)])
    case SemWait(n) =>
      noted.(manager := Running(t, SemTest(n)))
    case SemPost(n, front) =>
      if n !in s.sems then Crash(s) else
      var m := s.sems[n];
      var posted := noted.(sems := s.sems[n := m.(value := m.value + 1, posts := m.posts + 1)]);
      if m.waiter.None? then posted
      else if !Live(s, m.waiter.value) then Crash(s)
      else
        var u := m.waiter.value;
        posted.(tasks := s.tasks[u := s.tasks[u].(action := SemActivation)], manager := Running(t, WakePush(n, front)))
    case Create =>
      var u := |s.logs|;
      noted.(cid := Inc64(s.cid), tasks := s.tasks[u := NewTask(false)],
             logs := noted.logs + [EmptyLog], manager := Running(t, BornPush(u)))
    case Exit =>
      s.(logs := s.logs[c := l.(exited := true)],
         tasks := s.tasks[c := k.(action := FinishedCoroutine)], manager := Check(t))
    case Return =>
      noted.(tasks := s.tasks[c := k.(place := Abandoned)], manager := Check(t))
  }

  // ----- background workers -----

  predicate ReadEnabled(s: State, w: nat) {
    w < |s.workers| && w < |s.pipes| && s.workers[w].Idle? && s.pipes[w] > 0
  }

  function ReadStep(s: State, w: nat): State
    requires ReadEnabled(s, w)
  {
    s.(pipes := s.pipes[w := s.pipes[w] - 1], workers := s.workers[w := Token])
  }

  predicate WorkEnabled(s: State, w: nat) {
    w < |s.workers| && !s.workers[w].Idle? && !s.workers[w].Dead?
  }

  function Die(s: State, w: nat): State
    requires w < |s.workers|
  {
    s.(workers := s.workers[w := Dead])
  }

  function WorkStep(s: State, w: nat, raw: Ret, immediate: bool): State
    requires WorkEnabled(s, w)
  {
    match s.workers[w]
    case Token =>
      if s.doing == [] || !Live(s, s.doing[0]) then Die(s, w) else
      var t := s.doing[0];
      s.(doing := s.doing[1..], tasks := s.tasks[t := s.tasks[t].(place := AtWorker(w))],
         workers := s.workers[w := Exec(t)])
    case Exec(t) => if Live(s, t) then DoTask(s, w, t, raw, immediate) else Die(s, w)
    case Returned(t, ret) =>
      if ret == 0 then s.(workers := s.workers[w := Notify(t, false)])
      else if ret == 1 then s.(workers := s.workers[w := Idle])
      else Die(s, w)
    case Notify(t, inner) =>
      if !Live(s, t) then Die(s, w) else
      s.(todo := s.todo + [t], tasks := s.tasks[t := s.tasks[t].(place := InTodo)],
         logs := s.logs[t := s.logs[t].(notified := s.logs[t].notified + 1)],
         workers := s.workers[w := Posting(t, inner)])
    case Posting(t, inner) =>
      s.(sem := s.sem + 1, workers := s.workers[w := if inner then Returned(t, 1) else Idle])
  }

  /** A handler stores its result and the matching done action. */
  function Complete(s: State, w: nat, t: Id, raw: Ret, next: Worker): State
    requires Live(s, t) && w < |s.workers| && IsRequest(s.tasks[t].action)
  {
    var k, l := s.tasks[t], s.logs[t];
    var r := Outcome(k.action, raw);
    s.(tasks := s.tasks[t := k.(ret := r, action := DoneAction(k.action), place := AtWorker(w))],
       logs := s.logs[t := l.(execs := l.execs + [Done(k.args, r)])],
       workers := s.workers[w := next])
  }

  /** The watchers that the handler of an asynchronous request starts. */
  function Armed(k: Task, w: nat): Watch {
    if k.action.Msleep? then Watch(w, false, true)
    else if k.action.TcpAccept? then Watch(w, true, false)
    else Watch(w, true, k.args.timeoutMs != 0)
  }

  function DoTask(s: State, w: nat, t: Id, raw: Ret, immediate: bool): State
    requires Live(s, t) && w < |s.workers|
  {
    var k := s.tasks[t];
    if !IsRequest(k.action) then Die(s, w)
    else if IsSynchronous(k.action) then Complete(s, w, t, raw, Returned(t, 0))
    else if k.action.TimeoutConnect? && immediate then Complete(s, w, t, raw, Notify(t, true))
    else s.(watch := s.watch[t := Armed(k, w)], tasks := s.tasks[t := k.(place := Watched)],
            workers := s.workers[w := Returned(t, 1)])
  }

  /** libev runs the callback of an armed watcher; only a socket transfer may have to wait for more. */
  predicate FireEnabled(s: State, w: nat, t: Id, timer: bool, raw: Option<Ret>) {
    && w < |s.workers| && s.workers[w].Idle?
    && t in s.watch && s.watch[t].w == w
    && (if timer then s.watch[t].timer else s.watch[t].io)
    && (raw.None? ==> Live(s, t) && IsSocketTransfer(s.tasks[t].action) && !timer)
  }

  /** The watchers that remain armed when the callbacks of a request have stopped theirs. */
  function AfterStop(k: Task, a: Watch): Watch {
    if k.action.Msleep? then a.(timer := false)
    else if k.action.TcpAccept? then a.(io := false)
    else a.(io := false, timer := a.timer && k.args.timeoutMs == 0)
  }

  function FireStep(s: State, w: nat, t: Id, timer: bool, raw: Option<Ret>): State
    requires FireEnabled(s, w, t, timer, raw)
  {
    if raw.None? then s
    else if !Live(s, t) || !IsRequest(s.tasks[t].action) then Die(s, w)
    else
      var rest := AfterStop(s.tasks[t], s.watch[t]);
      var done := Complete(s, w, t, raw.value, Notify(t, false));
      done.(watch := if rest.io || rest.timer then s.watch[t := rest] else s.watch - {t})
  }

  // ----- crt_create in other threads -----

  function BeginStep(s: State): State {
    var u := |s.logs|;
    s.(cid := Inc64(s.cid), tasks := s.tasks[u := NewTask(true)], logs := s.logs + [EmptyLog],
       creating := s.creating + {u})
  }

  predicate BeginPushEnabled(s: State, t: Id) { t in s.creating && Live(s, t) }

  function BeginPushStep(s: State, t: Id): State
    requires BeginPushEnabled(s, t)
  {
    s.(todo := s.todo + [t], tasks := s.tasks[t := s.tasks[t].(place := InTodo)],
       creating := s.creating - {t}, unposted := s.unposted + 1)
  }

  // ----- events -----

  predicate Enabled(s: State, e: Event) {
    match e
    case Main => MainEnabled(s)
    case Choose(op) => ChooseEnabled(s, op)
    case Read(w) => ReadEnabled(s, w)
    case Work(w, _, _) => WorkEnabled(s, w)
    case Fire(w, t, timer, raw) => FireEnabled(s, w, t, timer, raw)
    case Begin => true
    case BeginPush(t) => BeginPushEnabled(s, t)
    case BeginPost => s.unposted > 0
  }

  function Step(s: State, e: Event): State
    requires Enabled(s, e)
  {
    match e
    case Main => MainStep(s)
    case Choose(op) => ChooseStep(s, op)
    case Read(w) => ReadStep(s, w)
    case Work(w, raw, immediate) => WorkStep(s, w, raw, immediate)
    case Fire(w, t, timer, raw) => FireStep(s, w, t, timer, raw)
    case Begin => BeginStep(s)
    case BeginPush(t) => BeginPushStep(s, t)
    case BeginPost => s.(unposted := s.unposted - 1, sem := s.sem + 1)
  }

  /**
   What the library asks of its callers: a semaphore is initialised once, has one waiter at a
   time, stays within an int, and is not posted while the activation of its waiter is pending.
   */
  predicate Disciplined(s: State, op: Op) {
    match op
    case SemInit(k, v) => k !in s.sems && v <= INT_MAX
    case SemWait(k) => k in s.sems && s.sems[k].waiter.None?
    case SemPost(k, _) => k in s.sems && s.sems[k].value < INT_MAX && (s.sems[k].waiter.None? || s.sems[k].value == 0)
    case _ => true
  }

  predicate Allowed(s: State, e: Event) {
    Enabled(s, e) && (e.Choose? ==> Disciplined(s, e.op))
  }

  /** A run of W workers from the initial state. */
  predicate Possible(s: State, es: seq<Event>)
    decreases |es|, 0
  {
    es == [] || (Possible(s, es[..|es| - 1]) && Allowed(After(s, es[..|es| - 1]), es[|es| - 1]))
  }

  function After(s: State, es: seq<Event>): State
    requires Possible(s, es)
    decreases |es|, 1
  {
    if es == [] then s else Step(After(s, es[..|es| - 1]), es[|es| - 1])
  }
}
