/**
 The runtime over its heap: two list heads thread the one link field of the task records. Each
 method performs one event in place; the ghost state says which state of the transition system
 the fields and the lists represent.
*/
module Runtime {
  import opened Actions
  import opened Scheduler
  import opened Invariant
  import opened Runs
  import opened Order
  import opened Guards
  import TailQueue

  /** A task record as allocated: its number, for the model, and its members. */
  datatype Record = Record(id: Id, task: Task)

  type TaskPtr = TailQueue.Item<Record>
  type ListHead = TailQueue.Head<Record>

  /** The list holds the records of the ids, in order. */
  ghost predicate Holds(items: seq<TaskPtr>, ids: seq<Id>, records: map<Id, TaskPtr>) {
    && |items| == |ids|
    && forall i {:trigger items[i]} {:trigger ids[i]} :: 0 <= i < |ids| ==> ids[i] in records && items[i] == records[ids[i]]
  }

  lemma HoldsOneMore(items: seq<TaskPtr>, ids: seq<Id>, records: map<Id, TaskPtr>, t: Id)
    requires Holds(items, ids, records) && t in records
    ensures Holds(items + [records[t]], ids + [t], records) && Holds([records[t]] + items, [t] + ids, records)
  {
  }

  datatype Part = TheLists | TheFields | TheRecords | TheQueues

  class CoroutineEnv {
    const todo: ListHead
    const doing: ListHead
    var records: map<Id, TaskPtr>
    var cid: nat
    var ran: nat
    var bgId: nat
    var managerSem: nat
    var pipes: seq<nat>
    var curr: Id
    var manager: Manager
    var workers: seq<Worker>
    var watch: map<Id, Watch>
    var sems: map<SemId, Sem>
    var creating: set<Id>
    var unposted: nat
    var nextId: nat
    ghost var st: State

    ghost predicate FieldsOk()
      reads this
    {
      && cid == st.cid && ran == st.ran && bgId == st.bgId && managerSem == st.sem && pipes == st.pipes && curr == st.curr
      && manager == st.manager && workers == st.workers && watch == st.watch && sems == st.sems
      && creating == st.creating && unposted == st.unposted && nextId == |st.logs|
    }

    ghost predicate RecordsMatch()
      reads this`records, this`st, records.Values`data
    {
      && records.Keys == st.tasks.Keys
      && forall t {:trigger records[t]} :: t in records ==> records[t].data == Record(t, st.tasks[t])
    }

    /** No record is linked by both lists, which thread the same link. */
    ghost predicate Disjoint()
      reads todo, doing
    {
      forall i, j :: 0 <= i < |todo.items| && 0 <= j < |doing.items| ==> todo.items[i] != doing.items[j]
    }

    ghost predicate Lists()
      reads todo, doing, todo.items`next, doing.items`next
    {
      todo != doing && todo.Valid() && doing.Valid() && Disjoint()
    }

    /** The parts of the invariant; callers pass it on whole and unfold it only where they must. */
    ghost predicate PartOk(p: Part)
      reads this, todo, doing, todo.items`next, doing.items`next, records.Values`data
    {
      match p
      case TheLists => Lists()
      case TheFields => FieldsOk()
      case TheRecords => RecordsMatch()
      case TheQueues => Holds(todo.items, st.todo, records) && Holds(doing.items, st.doing, records)
    }

    ghost predicate Valid()
      reads this, todo, doing, todo.items`next, doing.items`next, records.Values`data
    {
      forall p {:trigger PartOk(p)} :: PartOk(p)
    }

    lemma Open()
      requires Valid()
      ensures Lists() && FieldsOk() && RecordsMatch()
      ensures Holds(todo.items, st.todo, records) && Holds(doing.items, st.doing, records)
    {
      assert PartOk(TheLists) && PartOk(TheFields) && PartOk(TheRecords) && PartOk(TheQueues);
    }

    lemma Close()
      requires Lists() && FieldsOk() && RecordsMatch()
      requires Holds(todo.items, st.todo, records) && Holds(doing.items, st.doing, records)
      ensures Valid()
    {
      forall p ensures PartOk(p) {}
    }

    lemma Fields()
      requires Valid()
      ensures FieldsOk()
    {
      Open();
    }

    lemma Of(t: Id)
      requires Valid() && t in st.tasks
      ensures t in records && records[t].data == Record(t, st.tasks[t])
    {
      Open();
    }

    constructor (workerCount: nat)
      ensures Valid() && st == Init(workerCount)
      ensures fresh(todo) && fresh(doing) && records == map[]
    {
      todo := new TailQueue.Head<Record>();
      doing := new TailQueue.Head<Record>();
      records := map[];
      cid, ran, bgId, managerSem, curr, unposted, nextId := 0, 0, 0, 0, 0, 0, 0;
      pipes := seq(workerCount, _ => 0);
      manager := Waiting;
      workers := seq(workerCount, _ => Idle);
      watch, sems, creating := map[], map[], {};
      st := Init(workerCount);
      new;
      Close();
    }

    lemma Linked()
      requires Valid()
      ensures forall x :: x in todo.items ==> x in records.Values
      ensures forall x :: x in doing.items ==> x in records.Values
    {
      Open();
    }

    lemma Unlinked(t: Id)
      requires Valid() && t in records && t !in st.todo && t !in st.doing
      ensures records[t] !in todo.items && records[t] !in doing.items
    {
      Open();
    }

    // ----- the queue macros, with the bookkeeping of the new holder -----

    ghost predicate Linkable(t: Id)
      reads this
    {
      t in st.tasks && t !in st.todo && t !in st.doing
    }

    /** STAILQ_INSERT_TAIL on one list, beside the other. */
    method Append(q: ListHead, other: ListHead, elm: TaskPtr)
      requires q != other && q.Valid() && other.Valid() && Beside(q, other)
      requires elm !in q.items && elm !in other.items
      modifies q, elm`next, q.items`next
      ensures q.Valid() && q.items == old(q.items) + [elm]
      ensures other.Valid() && other.items == old(other.items) && Beside(q, other)
    {
      q.InsertTail(elm);
    }

    ghost predicate Beside(q: ListHead, other: ListHead)
      reads q, other
    {
      forall i, j :: 0 <= i < |q.items| && 0 <= j < |other.items| ==> q.items[i] != other.items[j]
    }

    method LinkTodo(t: Id)
      requires Valid() && Linkable(t)
      modifies this`st, todo, records.Values
      ensures Valid() && st == old(st).(todo := old(st).todo + [t])
    {
      Open();
      Unlinked(t);
      Linked();
      HoldsOneMore(todo.items, st.todo, records, t);
      Append(todo, doing, records[t]);
      st := st.(todo := st.todo + [t]);
      assert RecordsMatch();
      Close();
    }

    method LinkTodoFront(t: Id)
      requires Valid() && Linkable(t)
      modifies this`st, todo, records.Values
      ensures Valid() && st == old(st).(todo := [t] + old(st).todo)
    {
      Open();
      Unlinked(t);
      Linked();
      HoldsOneMore(todo.items, st.todo, records, t);
      todo.InsertHead(records[t]);
      st := st.(todo := [t] + st.todo);
      Close();
    }

    method LinkDoing(t: Id)
      requires Valid() && Linkable(t)
      modifies this`st, doing, records.Values
      ensures Valid() && st == old(st).(doing := old(st).doing + [t])
    {
      Open();
      Unlinked(t);
      Linked();
      HoldsOneMore(doing.items, st.doing, records, t);
      Append(doing, todo, records[t]);
      st := st.(doing := st.doing + [t]);
      assert RecordsMatch();
      Close();
    }

    method PushTodo(t: Id)
      requires Valid() && Linkable(t)
      modifies this`st, todo, records.Values
      ensures Valid()
      ensures st == old(st).(todo := old(st).todo + [t], tasks := old(st).tasks[t := old(st).tasks[t].(place := InTodo)])
    {
      LinkTodo(t);
      SetPlace(t, InTodo);
    }

    method UnshiftTodo(t: Id)
      requires Valid() && Linkable(t)
      modifies this`st, todo, records.Values
      ensures Valid()
      ensures st == old(st).(todo := [t] + old(st).todo, tasks := old(st).tasks[t := old(st).tasks[t].(place := InTodo)])
    {
      LinkTodoFront(t);
      SetPlace(t, InTodo);
    }

    method PushDoing(t: Id)
      requires Valid() && Linkable(t)
      modifies this`st, doing, records.Values
      ensures Valid()
      ensures st == old(st).(doing := old(st).doing + [t], tasks := old(st).tasks[t := old(st).tasks[t].(place := InDoing)])
    {
      LinkDoing(t);
      SetPlace(t, InDoing);
    }

    method ShiftTodo() returns (t: Id)
      requires Valid() && st.todo != []
      modifies this`st, todo
      ensures Valid() && t == old(st).todo[0] && st == old(st).(todo := old(st).todo[1..])
    {
      Open();
      var elm: TaskPtr := todo.Shift();
      t := elm.data.id;
      st := st.(todo := st.todo[1..]);
      Close();
    }

    method ShiftDoing() returns (t: Id)
      requires Valid() && st.doing != []
      modifies this`st, doing
      ensures Valid() && t == old(st).doing[0] && st == old(st).(doing := old(st).doing[1..])
    {
      Open();
      var elm: TaskPtr := doing.Shift();
      t := elm.data.id;
      st := st.(doing := st.doing[1..]);
      Close();
    }

    /** Assign members of a task record. */
    method SetTask(t: Id, k: Task)
      requires Valid() && t in st.tasks
      modifies this`st, records.Values
      ensures Valid() && st == old(st).(tasks := old(st).tasks[t := k])
    {
      Open();
      records[t].data := Record(t, k);
      st := st.(tasks := st.tasks[t := k]);
      Close();
    }

    /** The members of a task record. */
    method Get(t: Id) returns (k: Task)
      requires Valid() && t in st.tasks
      ensures k == st.tasks[t]
    {
      Of(t);
      k := records[t].data.task;
    }

    /** The members of curr_task_ptr. */
    method GetCurr() returns (c: Id, k: Task)
      requires Valid() && st.curr in st.tasks
      ensures c == st.curr && k == st.tasks[c]
    {
      Fields();
      c := curr;
      k := Get(c);
    }

    /** Bookkeeping of the holder. */
    method SetPlace(t: Id, p: Where)
      requires Valid() && t in st.tasks
      modifies this`st, records.Values
      ensures Valid() && st == old(st).(tasks := old(st).tasks[t := old(st).tasks[t].(place := p)])
    {
      var k := Get(t);
      SetTask(t, k.(place := p));
    }

    /** Allocate a task record; its number is the next one in the history. */
    method NewRecord(external: bool) returns (u: Id)
      requires Valid() && |st.logs| !in st.tasks
      modifies this`st, this`records, this`cid, this`nextId
      ensures Valid() && u == |old(st).logs|
      ensures st == old(st).(cid := Inc64(old(st).cid), tasks := old(st).tasks[u := NewTask(external)],
                             logs := old(st).logs + [EmptyLog])
      ensures fresh(records.Values - old(records.Values))
    {
      Fields();
      u := nextId;
      var elm := new TailQueue.Item<Record>(Record(u, NewTask(external)));
      Store(elm, NewTask(external));
      CountNew();
    }

    method Store(elm: TaskPtr, k: Task)
      requires Valid() && |st.logs| !in st.tasks && elm.data == Record(|st.logs|, k)
      modifies this`st, this`records, this`nextId
      ensures Valid() && records.Values <= old(records.Values) + {elm}
      ensures st == old(st).(tasks := old(st).tasks[|old(st).logs| := k], logs := old(st).logs + [EmptyLog])
    {
      Open();
      records := records[nextId := elm];
      nextId := nextId + 1;
      st := st.(tasks := st.tasks[|st.logs| := k], logs := st.logs + [EmptyLog]);
      Close();
    }

    method CountNew()
      requires Valid()
      modifies this`st, this`cid
      ensures Valid() && st == old(st).(cid := Inc64(old(st).cid))
    {
      Open();
      cid := Inc64(cid);
      st := st.(cid := cid);
      Close();
    }

    /** The record the running coroutine works on is there, and nothing else holds it. */
    ghost predicate Running(at: Point)
      reads this
    {
      st.manager.Running? && st.manager.at == at && Live(st, st.curr)
    }

    method SetManager(m: Manager)
      requires Valid()
      modifies this`manager, this`st
      ensures Valid() && st == old(st).(manager := m)
    {
      Open();
      manager := m;
      st := st.(manager := m);
      Close();
    }

    method At(p: Point)
      requires Valid() && st.manager.Running?
      modifies this`manager, this`st
      ensures Valid() && st == old(st).(manager := Scheduler.Running(old(st).manager.t, p))
    {
      Fields();
      SetManager(Scheduler.Running(manager.t, p));
    }

    /** Back on the manager's stack. */
    method Leave()
      requires Valid() && st.manager.Running?
      modifies this`manager, this`st
      ensures Valid() && st == old(st).(manager := Check(old(st).manager.t))
    {
      Fields();
      SetManager(Check(manager.t));
    }

    method CountUnit()
      requires Valid()
      modifies this`managerSem, this`st
      ensures Valid() && st == old(st).(sem := old(st).sem + 1)
    {
      Open();
      managerSem := managerSem + 1;
      st := st.(sem := managerSem);
      Close();
    }

    method WriteToken(i: nat)
      requires Valid() && i < |st.pipes|
      modifies this`bgId, this`pipes, this`st
      ensures Valid() && st == old(st).(bgId := Inc64(old(st).bgId), pipes := old(st).pipes[i := old(st).pipes[i] + 1])
    {
      Open();
      bgId := Inc64(bgId);
      pipes := pipes[i := pipes[i] + 1];
      st := st.(bgId := bgId, pipes := pipes);
      Close();
    }

    method SetWatch(m: map<Id, Watch>)
      requires Valid()
      modifies this`watch, this`st
      ensures Valid() && st == old(st).(watch := m)
    {
      Open();
      watch := m;
      st := st.(watch := m);
      Close();
    }

    // ----- the manager loop -----

    method WaitForUnit()
      requires Valid() && st.manager.Waiting? && st.sem > 0
      modifies this`managerSem, this`manager, this`st
      ensures Valid() && st == MainStep(old(st))
    {
      Open();
      managerSem := managerSem - 1;
      manager := Took;
      st := st.(sem := managerSem, manager := manager);
      Close();
    }

    method TakeTask()
      requires Valid() && st.manager.Took? && st.todo != [] && Live(st, st.todo[0])
      modifies this`manager, this`st, todo, records.Values
      ensures Valid() && st == MainStep(old(st))
    {
      var t := ShiftTodo();
      SetPlace(t, AtManager);
      SetManager(Dispatch(t));
    }

    /** The switch of the manager loop on the action of the task it took. */
    method Switch()
      requires Valid() && st.manager.Dispatch? && Live(st, st.manager.t)
      requires var k := st.tasks[st.manager.t];
               || k.action.NewCoroutine?
               || (k.action.FinishedCoroutine? && st.curr == st.manager.t && st.curr !in st.todo && st.curr !in st.doing)
               || (IsResumable(k.action) && k.ctx.Saved?)
      modifies this`manager, this`st, this`curr, this`records, this`ran, records.Values
      ensures Valid() && st == MainStep(old(st)) && records.Values <= old(records.Values)
    {
      Fields();
      var t := manager.t;
      var k := Get(t);
      if k.action.NewCoroutine? {
        Enter(t, User);
      } else if k.action.FinishedCoroutine? {
        ghost var l := st.logs[curr];
        FreeCurrent();
        Write(t, l.(frees := l.frees + 1));
        SetManager(Waiting);
      } else {
        Enter(t, k.ctx.point);
        SetTask(t, k.(ctx := NoContext));
      }
    }

    /** Swap to the stack of coroutine t. */
    method Enter(t: Id, p: Point)
      requires Valid()
      modifies this`manager, this`curr, this`st
      ensures Valid() && st == old(st).(curr := t, manager := Scheduler.Running(t, p))
    {
      Open();
      curr, manager := t, Scheduler.Running(t, p);
      st := st.(curr := curr, manager := manager);
      Close();
    }

    method FreeCurrent()
      requires Valid() && st.curr !in st.todo && st.curr !in st.doing
      modifies this`records, this`ran, this`st
      ensures Valid() && st == old(st).(tasks := old(st).tasks - {old(st).curr}, ran := Inc64(old(st).ran))
      ensures records.Values <= old(records.Values)
    {
      Open();
      records := records - {curr};
      ran := Inc64(ran);
      st := st.(tasks := st.tasks - {curr}, ran := ran);
      Close();
    }

    method AfterSwap()
      requires Valid() && st.manager.Check? && Live(st, st.manager.t)
      modifies this`manager, this`st
      ensures Valid() && st == MainStep(old(st))
    {
      Fields();
      var t := manager.t;
      var k := Get(t);
      SetManager(if k.action.FinishedCoroutine? then Dispatch(t) else Waiting);
    }

    // ----- inside the crt_ calls -----

    /** coroutine_notify_background_worker, first half. */
    method NotifyWorkerPush()
      requires Valid() && Running(ReqPush) && Linkable(st.curr)
      modifies this`manager, this`st, doing, records.Values
      ensures Valid() && st == MainStep(old(st))
    {
      Fields();
      PushDoing(curr);
      At(ReqWrite);
    }

    /** ... and second half: the token goes to the next pipe in turn. */
    method NotifyWorkerWrite()
      requires Valid() && Running(ReqWrite) && |st.pipes| > 0
      modifies this`manager, this`st, this`bgId, this`pipes
      ensures Valid() && st == MainStep(old(st))
    {
      Fields();
      WriteToken(bgId % |pipes|);
      At(Swap(GetRet));
    }

    method YieldQueue()
      requires Valid() && Running(YieldPush) && Linkable(st.curr)
      modifies this`manager, this`st, todo, records.Values
      ensures Valid() && st == MainStep(old(st))
    {
      Fields();
      PushTodo(curr);
      At(YieldPost);
    }

    /** sem_post(manager_sem) after a push. */
    method Post()
      requires Valid() && (Running(YieldPost) || Running(WakePost) || Running(BornPost))
      modifies this`manager, this`st, this`managerSem
      ensures Valid() && st == MainStep(old(st))
    {
      Fields();
      var at := manager.at;
      CountUnit();
      At(if at.YieldPost? then Swap(User) else User);
    }

    /** The queueing half of crt_sem_post and of the critical crt_sem_priority_post. */
    method WakeWaiter(n: SemId, front: bool)
      requires Valid() && Running(WakePush(n, front)) && n in st.sems && st.sems[n].waiter.Some?
      requires Linkable(st.sems[n].waiter.value) && Live(st, st.sems[n].waiter.value)
      modifies this`manager, this`st, todo, records.Values
      ensures Valid() && st == MainStep(old(st))
    {
      Fields();
      var u := sems[n].waiter.value;
      if front { UnshiftTodo(u); } else { PushTodo(u); }
      At(WakePost);
    }

    /** The queueing half of crt_create in a coroutine. */
    method QueueChild(u: Id)
      requires Valid() && Running(BornPush(u)) && Linkable(u) && Live(st, u)
      modifies this`manager, this`st, todo, records.Values
      ensures Valid() && st == MainStep(old(st))
    {
      PushTodo(u);
      At(BornPost);
    }

    method SetSem(n: SemId, m: Sem)
      requires Valid()
      modifies this`sems, this`st
      ensures Valid() && st == old(st).(sems := old(st).sems[n := m])
    {
      Open();
      sems := sems[n := m];
      st := st.(sems := sems);
      Close();
    }

    /** One turn of the loop in crt_sem_wait. */
    method SemTestOnce(n: SemId)
      requires Valid() && Running(SemTest(n)) && n in st.sems
      modifies this`manager, this`st, this`sems, records.Values
      ensures Valid() && st == MainStep(old(st))
    {
      Fields();
      var m := sems[n];
      if m.value > 0 {
        SetSem(n, m.(waiter := None, value := m.value - 1, waits := m.waits + 1));
        At(User);
      } else {
        var c := curr;
        SetSem(n, m.(waiter := Some(c)));
        SetPlace(c, AtSem(n));
        At(Swap(SemTest(n)));
      }
    }

    /** coroutine_get_retval: the value passes through int. */
    method GetRetval() returns (r: Ret)
      requires Valid() && Running(GetRet)
      modifies this`manager, this`st
      ensures Valid() && st == MainStep(old(st)) && r == Delivered(old(st).tasks[old(st).curr].ret)
    {
      var c, k := GetCurr();
      r := Delivered(k.ret);
      ghost var l := st.logs[c];
      Write(c, l.(got := l.got + [r], trace := l.trace + [Got(r)]));
      At(User);
    }

    /** swapcontext to the manager. */
    method SwapOut(p: Point)
      requires Valid() && Running(Swap(p))
      modifies this`manager, this`st, records.Values
      ensures Valid() && st == MainStep(old(st))
    {
      var c, k := GetCurr();
      SetTask(c, k.(ctx := Saved(p)));
      Leave();
    }

    // ----- the operations a coroutine may choose -----

    /** Note the operation in the history of the running coroutine. */
    ghost method Note(op: Op)
      requires Valid() && Running(User)
      modifies this`st
      ensures Valid()
      ensures var l := old(st).logs[old(st).curr];
              st == old(st).(logs := old(st).logs[old(st).curr := l.(trace := l.trace + [Issued(op)], ops := l.ops + 1)])
    {
      var l := st.logs[st.curr];
      Write(st.curr, l.(trace := l.trace + [Issued(op)], ops := l.ops + 1));
    }

    /** Replace the history of coroutine t. */
    ghost method Write(t: Id, l: Log)
      requires Valid() && t < |st.logs|
      modifies this`st
      ensures Valid() && st == old(st).(logs := old(st).logs[t := l])
    {
      Open();
      st := st.(logs := st.logs[t := l]);
      Close();
    }

    /** Fill in a request: action and arguments. */
    method SetRequest(q: Request)
      requires Valid() && Running(User) && IsRequest(q.action)
      modifies this`manager, this`st, records.Values
      ensures Valid() && st == ChooseStep(old(st), Call(q))
    {
      var c, k := GetCurr();
      ghost var l := st.logs[c];
      Note(Call(q));
      Write(c, st.logs[c].(issued := l.issued + [q]));
      SetTask(c, k.(action := q.action, args := q));
      At(ReqPush);
    }

    method SetYield()
      requires Valid() && Running(User)
      modifies this`manager, this`st, records.Values
      ensures Valid() && st == ChooseStep(old(st), Yield)
    {
      var c, k := GetCurr();
      Note(Yield);
      SetTask(c, k.(action := SchedYield));
      At(YieldPush);
    }

    /** crt_exit: mark the task finished and return to the manager. */
    method SetFinished()
      requires Valid() && Running(User)
      modifies this`manager, this`st, records.Values
      ensures Valid() && st == ChooseStep(old(st), Exit)
    {
      var c, k := GetCurr();
      Note(Exit);
      Write(c, st.logs[c].(exited := true));
      SetTask(c, k.(action := FinishedCoroutine));
      Leave();
    }

    method PlainReturn()
      requires Valid() && Running(User)
      modifies this`manager, this`st, records.Values
      ensures Valid() && st == ChooseStep(old(st), Return)
    {
      var c, k := GetCurr();
      Note(Return);
      SetTask(c, k.(place := Abandoned));
      Leave();
    }

    method InitSem(n: SemId, v: nat)
      requires Valid() && Running(User)
      modifies this`sems, this`st
      ensures Valid() && st == ChooseStep(old(st), SemInit(n, v))
    {
      Note(SemInit(n, v));
      SetSem(n, Sem(v, None, v, 0, 0));
    }

    method EnterSemWait(n: SemId)
      requires Valid() && Running(User)
      modifies this`manager, this`st
      ensures Valid() && st == ChooseStep(old(st), SemWait(n))
    {
      Note(SemWait(n));
      At(SemTest(n));
    }

    /** The counting half of crt_sem_post: if a waiter is recorded, mark it for activation. */
    method CountPost(n: SemId, front: bool)
      requires Valid() && Running(User) && n in st.sems
      requires st.sems[n].waiter.Some? ==> Live(st, st.sems[n].waiter.value)
      modifies this`manager, this`st, this`sems, records.Values
      ensures Valid() && st == ChooseStep(old(st), SemPost(n, front))
    {
      Fields();
      var m := sems[n];
      Note(SemPost(n, front));
      SetSem(n, m.(value := m.value + 1, posts := m.posts + 1));
      if m.waiter.Some? {
        var k := Get(m.waiter.value);
        SetTask(m.waiter.value, k.(action := SemActivation));
        At(WakePush(n, front));
      }
    }

    method CreateChild()
      requires Valid() && Running(User) && |st.logs| !in st.tasks
      modifies this`manager, this`st, this`records, this`cid, this`nextId
      ensures Valid() && st == ChooseStep(old(st), Create) && fresh(records.Values - old(records.Values))
    {
      Note(Create);
      var u := NewRecord(false);
      assert u == |old(st).logs| && st.manager == old(st).manager;
      At(BornPush(u));
    }

    // ----- background workers -----

    method Phase(w: nat, p: Worker)
      requires Valid() && w < |st.workers|
      modifies this`workers, this`st
      ensures Valid() && st == old(st).(workers := old(st).workers[w := p])
    {
      Open();
      workers := workers[w := p];
      st := st.(workers := workers);
      Close();
    }

    method ReadPipe(w: nat)
      requires Valid() && ReadEnabled(st, w)
      modifies this`workers, this`pipes, this`st
      ensures Valid() && st == ReadStep(old(st), w)
    {
      TakeToken(w);
      Phase(w, Token);
    }

    method TakeToken(w: nat)
      requires Valid() && w < |st.pipes| && st.pipes[w] > 0
      modifies this`pipes, this`st
      ensures Valid() && st == old(st).(pipes := old(st).pipes[w := old(st).pipes[w] - 1])
    {
      Open();
      pipes := pipes[w := pipes[w] - 1];
      st := st.(pipes := pipes);
      Close();
    }

    method TakeRequest(w: nat, raw: Ret, immediate: bool)
      requires Valid() && WorkEnabled(st, w) && st.workers[w].Token? && st.doing != [] && Live(st, st.doing[0])
      modifies this`workers, this`st, doing, records.Values
      ensures Valid() && st == WorkStep(old(st), w, raw, immediate)
    {
      var t := ShiftDoing();
      SetPlace(t, AtWorker(w));
      Phase(w, Exec(t));
    }

    /** A handler stores result and done action. */
    method Finish(w: nat, t: Id, raw: Ret, next: Worker)
      requires Valid() && Live(st, t) && w < |st.workers| && IsRequest(st.tasks[t].action)
      modifies this`workers, this`st, records.Values
      ensures Valid() && st == Complete(old(st), w, t, raw, next)
    {
      var k := Get(t);
      var r := Outcome(k.action, raw);
      ghost var l := st.logs[t];
      Write(t, l.(execs := l.execs + [Done(k.args, r)]));
      SetTask(t, k.(ret := r, action := DoneAction(k.action), place := AtWorker(w)));
      Phase(w, next);
    }

    /** do_task. */
    method RunHandler(w: nat, t: Id, raw: Ret, immediate: bool)
      requires Valid() && Live(st, t) && w < |st.workers| && st.workers[w] == Exec(t) && IsRequest(st.tasks[t].action)
      modifies this`workers, this`st, this`watch, records.Values
      ensures Valid() && st == WorkStep(old(st), w, raw, immediate)
    {
      Fields();
      var k := Get(t);
      if IsSynchronous(k.action) {
        Finish(w, t, raw, Returned(t, 0));
      } else if k.action.TimeoutConnect? && immediate {
        Finish(w, t, raw, Notify(t, true));
      } else {
        SetWatch(watch[t := Armed(k, w)]);
        SetTask(t, k.(place := Watched));
        Phase(w, Returned(t, 1));
      }
    }

    /** new_event_handler, after do_task. */
    method HandlerReturned(w: nat, raw: Ret, immediate: bool)
      requires Valid() && w < |st.workers| && st.workers[w].Returned?
      modifies this`workers, this`st
      ensures Valid() && st == WorkStep(old(st), w, raw, immediate)
    {
      Fields();
      var t, ret := workers[w].t, workers[w].ret;
      Phase(w, if ret == 0 then Notify(t, false) else if ret == 1 then Idle else Dead);
    }

    /** coroutine_notify_manager, first half. */
    method NotifyManagerPush(w: nat, raw: Ret, immediate: bool)
      requires Valid() && w < |st.workers| && st.workers[w].Notify?
      requires Live(st, st.workers[w].t) && Linkable(st.workers[w].t)
      modifies this`workers, this`st, todo, records.Values
      ensures Valid() && st == WorkStep(old(st), w, raw, immediate)
    {
      Fields();
      var t, inner := workers[w].t, workers[w].inner;
      PushTodo(t);
      Write(t, st.logs[t].(notified := st.logs[t].notified + 1));
      Phase(w, Posting(t, inner));
    }

    /** ... and second half. */
    method NotifyManagerPost(w: nat, raw: Ret, immediate: bool)
      requires Valid() && w < |st.workers| && st.workers[w].Posting?
      modifies this`workers, this`st, this`managerSem
      ensures Valid() && st == WorkStep(old(st), w, raw, immediate)
    {
      Fields();
      var t, inner := workers[w].t, workers[w].inner;
      CountUnit();
      Phase(w, if inner then Returned(t, 1) else Idle);
    }

    /** A watcher callback that completes its request: stop the watchers, store the result. */
    method Callback(w: nat, t: Id, timer: bool, raw: Ret)
      requires Valid() && FireEnabled(st, w, t, timer, Some(raw)) && Live(st, t) && IsRequest(st.tasks[t].action)
      modifies this`workers, this`st, this`watch, records.Values
      ensures Valid() && st == FireStep(old(st), w, t, timer, Some(raw))
    {
      Fields();
      var k := Get(t);
      var rest := AfterStop(k, watch[t]);
      SetWatch(if rest.io || rest.timer then watch[t := rest] else watch - {t});
      Finish(w, t, raw, Notify(t, false));
    }

    // ----- crt_create in other threads -----

    method CreateBegin()
      requires Valid() && |st.logs| !in st.tasks
      modifies this`st, this`records, this`cid, this`nextId, this`creating
      ensures Valid() && st == BeginStep(old(st)) && fresh(records.Values - old(records.Values))
    {
      var u := NewRecord(true);
      NoteCreating(u);
    }

    method NoteCreating(u: Id)
      requires Valid()
      modifies this`st, this`creating
      ensures Valid() && st == old(st).(creating := old(st).creating + {u})
    {
      Open();
      creating := creating + {u};
      st := st.(creating := creating);
      Close();
    }

    method CreatePush(t: Id)
      requires Valid() && BeginPushEnabled(st, t) && Linkable(t)
      modifies this`st, this`creating, this`unposted, todo, records.Values
      ensures Valid() && st == BeginPushStep(old(st), t)
    {
      PushTodo(t);
      NotePushed(t);
    }

    method NotePushed(t: Id)
      requires Valid()
      modifies this`st, this`creating, this`unposted
      ensures Valid() && st == old(st).(creating := old(st).creating - {t}, unposted := old(st).unposted + 1)
    {
      Open();
      creating, unposted := creating - {t}, unposted + 1;
      st := st.(creating := creating, unposted := unposted);
      Close();
    }

    method CreatePost()
      requires Valid() && st.unposted > 0
      modifies this`st, this`managerSem, this`unposted
      ensures Valid() && st == Step(old(st), BeginPost)
    {
      Open();
      managerSem := managerSem + 1;
      unposted := unposted - 1;
      st := st.(sem := managerSem, unposted := unposted);
      Close();
    }

    // ----- whole runs -----

    /** The manager thread's next step. */
    method MainNext()
      requires Valid() && MainEnabled(st) && ManagerReady(st)
      modifies this, todo, doing, records.Values
      ensures Valid() && st == MainStep(old(st)) && records.Values <= old(records.Values)
    {
      Fields();
      match manager
      case Waiting => WaitForUnit();
      case Took => TakeTask();
      case Dispatch(t) => Switch();
      case Check(t) => AfterSwap();
      case Running(t, at) => ContinueNext(t, at);
    }

    /** The next step of the coroutine inside a crt_ call. */
    method ContinueNext(t: Id, at: Point)
      requires Valid() && st.manager == Scheduler.Running(t, at) && at != User && RunnerReady(st, at)
      modifies this, todo, doing, records.Values
      ensures Valid() && st == MainStep(old(st)) && records == old(records)
    {
      if at.ReqPush? || at.YieldPush? || at.WakePush? || at.BornPush? {
        PushNext(at);
        return;
      }
      match at
      case ReqWrite => NotifyWorkerWrite();
      case YieldPost | WakePost | BornPost => Post();
      case SemTest(n) => SemTestOnce(n);
      case GetRet => var _ := GetRetval();
      case Swap(p) => SwapOut(p);
    }

    method PushNext(at: Point)
      requires Valid() && Running(at) && RunnerReady(st, at)
      requires at.ReqPush? || at.YieldPush? || at.WakePush? || at.BornPush?
      modifies this, todo, doing, records.Values
      ensures Valid() && st == MainStep(old(st)) && records == old(records)
    {
      match at
      case ReqPush => NotifyWorkerPush();
      case YieldPush => YieldQueue();
      case WakePush(n, front) => WakeWaiter(n, front);
      case BornPush(u) => QueueChild(u);
    }

    method ChooseNext(op: Op)
      requires Valid() && ChooseEnabled(st, op) && ChooserReady(st, op)
      modifies this, records.Values
      ensures Valid() && st == ChooseStep(old(st), op) && fresh(records.Values - old(records.Values))
    {
      match op
      case Call(q) => SetRequest(q);
      case Yield => SetYield();
      case SemInit(n, v) => InitSem(n, v);
      case SemWait(n) => EnterSemWait(n);
      case SemPost(n, front) => CountPost(n, front);
      case Create => CreateChild();
      case Exit => SetFinished();
      case Return => PlainReturn();
    }

    method WorkNext(w: nat, raw: Ret, immediate: bool)
      requires Valid() && WorkEnabled(st, w) && WorkerReady(st, w)
      modifies this, todo, doing, records.Values
      ensures Valid() && st == WorkStep(old(st), w, raw, immediate) && records == old(records)
    {
      Fields();
      match workers[w]
      case Token => TakeRequest(w, raw, immediate);
      case Exec(t) => RunHandler(w, t, raw, immediate);
      case Returned(t, ret) => HandlerReturned(w, raw, immediate);
      case Notify(t, inner) => NotifyManagerPush(w, raw, immediate);
      case Posting(t, inner) => NotifyManagerPost(w, raw, immediate);
    }

    /** A callback that cannot complete its request yet leaves the scheduler's state alone. */
    method FireNext(w: nat, t: Id, timer: bool, raw: Option<Ret>)
      requires Valid() && FireEnabled(st, w, t, timer, raw) && Live(st, t) && IsRequest(st.tasks[t].action)
      modifies this, records.Values
      ensures Valid() && st == FireStep(old(st), w, t, timer, raw) && records == old(records)
    {
      if raw.Some? { Callback(w, t, timer, raw.value); }
    }

    /**
     Any event: the lists stay acyclic, well formed and disjoint, and they hold the records of
     the abstract queues in order.
     */
    method Perform(e: Event)
      requires Valid() && Enabled(st, e) && Ready(st, e)
      modifies this, todo, doing, records.Values
      ensures Valid() && st == Step(old(st), e) && fresh(records.Values - old(records.Values))
    {
      match e
      case Main => MainNext();
      case Choose(op) => ChooseNext(op);
      case Read(w) => ReadPipe(w);
      case Work(w, raw, immediate) => WorkNext(w, raw, immediate);
      case Fire(w, t, timer, raw) => FireNext(w, t, timer, raw);
      case Begin => CreateBegin();
      case BeginPush(t) => CreatePush(t);
      case BeginPost => CreatePost();
    }
  }

  /**
   Over every run, for any number of workers: both lists stay well formed and share no record, and
   each links the records of its abstract queue, in order.
  */
  method RunOf(workers: nat, es: seq<Event>) returns (env: CoroutineEnv)
    requires workers >= 1 && Possible(Init(workers), es)
    ensures env.Valid() && env.st == After(Init(workers), es)
    ensures env.Lists()
    ensures Holds(env.todo.items, After(Init(workers), es).todo, env.records)
    ensures Holds(env.doing.items, After(Init(workers), es).doing, env.records)
  {
    env := new CoroutineEnv(workers);
    assert es[..0] == [];
    for i := 0 to |es|
      invariant fresh(env) && fresh(env.todo) && fresh(env.doing) && fresh(env.records.Values)
      invariant Possible(Init(workers), es[..i])
      invariant env.Valid() && env.st == After(Init(workers), es[..i])
    {
      RunIsReady(workers, es, i);
      env.Perform(es[i]);
    }
    assert es[..|es|] == es;
    env.Open();
  }
}
