/**
 A second coroutine waits on a semaphore that has a waiter. Sooner or later one of the two can be
 dropped, whatever the value was; if there is no waiter, nobody ever is.
*/
module SecondWait {
  import opened Actions
  import opened Scheduler
  import opened Seqs
  import opened Invariant
  import opened Frames
  import opened ManagerSteps
  import opened ChoiceSteps
  import opened WorkerSteps
  import opened Runs
  import opened Ownership
  import opened Semaphores
  import opened Paths

  // ----- two states that differ in one queued record -----

  /** b is a but for the record of u, which is in todo_queue, and in a activated to test semaphore n. */
  predicate Twin(a: State, b: State, u: Id, n: SemId) {
    && u in a.tasks && u in b.tasks && u in a.todo
    && b == a.(tasks := a.tasks[u := b.tasks[u]])
    && a.tasks[u].action.SemActivation? && a.tasks[u].ctx == Saved(SemTest(n))
  }

  /** The manager is not about to take u, and does not work on it. */
  predicate OffManager(s: State, u: Id) {
    match s.manager
    case Waiting => true
    case Took => s.todo != [] && s.todo[0] != u && Live(s, s.todo[0])
    case Dispatch(d) => d != u && Live(s, d) && !s.tasks[d].action.FinishedCoroutine?
    case Check(d) => d != u && Live(s, d)
    case Running(d, at) => d != u && s.curr == d && Live(s, d) && (at == User || at == GetRet || at.SemTest? || at.Swap?)
    case Aborted => false
  }

  lemma TwinSwitch(a: State, b: State, u: Id, n: SemId)
    requires Twin(a, b, u, n) && OffManager(b, u) && b.manager.Dispatch?
    ensures MainEnabled(a) && Twin(MainStep(a), MainStep(b), u, n)
  {
  }

  lemma TwinLoop(a: State, b: State, u: Id, n: SemId)
    requires Twin(a, b, u, n) && MainEnabled(b) && OffManager(b, u) && !b.manager.Running? && !b.manager.Dispatch?
    ensures MainEnabled(a) && Twin(MainStep(a), MainStep(b), u, n)
  {
  }

  lemma TwinContinue(a: State, b: State, u: Id, n: SemId)
    requires Twin(a, b, u, n) && MainEnabled(b) && OffManager(b, u) && b.manager.Running?
    ensures MainEnabled(a) && Twin(MainStep(a), MainStep(b), u, n)
  {
  }

  lemma TwinMain(a: State, b: State, u: Id, n: SemId)
    requires Twin(a, b, u, n) && MainEnabled(b) && OffManager(b, u)
    ensures MainEnabled(a) && Twin(MainStep(a), MainStep(b), u, n)
  {
    if b.manager.Running? {
      TwinContinue(a, b, u, n);
    } else if b.manager.Dispatch? {
      TwinSwitch(a, b, u, n);
    } else {
      TwinLoop(a, b, u, n);
    }
  }

  predicate PlainOp(op: Op) { op.Return? || op.SemWait? }

  lemma TwinChoose(a: State, b: State, u: Id, n: SemId, op: Op)
    requires Twin(a, b, u, n) && ChooseEnabled(b, op) && OffManager(b, u) && PlainOp(op)
    ensures ChooseEnabled(a, op) && Twin(ChooseStep(a, op), ChooseStep(b, op), u, n)
    ensures Disciplined(b, op) ==> Disciplined(a, op)
  {
  }

  lemma TwinPost(a: State, b: State, u: Id, n: SemId, w: nat)
    requires Twin(a, b, u, n) && w < |b.workers| && b.workers[w].Posting?
    ensures WorkEnabled(a, w) && Twin(WorkStep(a, w, Ret(0, 0), false), WorkStep(b, w, Ret(0, 0), false), u, n)
  {
  }

  // ----- driving the runtime until u is at the head -----

  /** Coroutine c is parked in semaphore n, which has no unit. */
  predicate Sleeps(s: State, n: SemId, c: Id, u: Id) {
    c != u && c in s.tasks && s.tasks[c].place == AtSem(n) && n in s.sems && s.sems[n].waiter == Some(c) && s.sems[n].value == 0
  }

  /** From s a run leads to a, which differs from b, a state of the invariant, in the record of u. */
  ghost predicate Paired(s: State, a: State, b: State, u: Id, n: SemId, c: Id) {
    Reaches(s, a) && Inv(b) && Twin(a, b, u, n) && Sleeps(b, n, c, u)
  }

  lemma PairMain(s: State, a: State, b: State, u: Id, n: SemId, c: Id)
    requires Paired(s, a, b, u, n, c) && MainEnabled(b) && OffManager(b, u) && Sleeps(MainStep(b), n, c, u)
    ensures MainEnabled(a) && Paired(s, MainStep(a), MainStep(b), u, n, c)
  {
    TwinMain(a, b, u, n);
    MainKeeps(b);
    GoMain(s, a, MainStep(a));
  }

  lemma SomebodyPosts(workers: seq<Worker>) returns (w: nat)
    requires Sum(Map(PostCount, workers)) > 0
    ensures w < |workers| && workers[w].Posting?
  {
    var counts := Map(PostCount, workers);
    SumZero(counts);
    w :| 0 <= w < |counts| && counts[w] != 0;
  }

  /** The manager waits, todo_queue is not empty, and a unit is there. */
  predicate UnitThere(s: State) { s.manager.Waiting? && s.sem > 0 }

  predicate SameWork(s: State, s': State) {
    s'.manager == s.manager && s'.todo == s.todo && s'.tasks == s.tasks && s'.sems == s.sems && s'.logs == s.logs
  }

  /** If there is none, a producer is about to post it. */
  lemma FetchUnit(s: State, a: State, b: State, u: Id, n: SemId, c: Id) returns (a': State, b': State)
    requires Paired(s, a, b, u, n, c) && b.manager.Waiting?
    ensures Paired(s, a', b', u, n, c) && UnitThere(b') && SameWork(b, b')
  {
    if b.sem > 0 { return a, b; }
    AllTallies(b);
    if b.unposted > 0 {
      a', b' := Step(a, BeginPost), Step(b, BeginPost);
      Go(s, a, BeginPost, a');
      BirthKeeps(b, BeginPost);
    } else {
      var w := SomebodyPosts(b.workers);
      a', b' := WorkStep(a, w, Ret(0, 0), false), WorkStep(b, w, Ret(0, 0), false);
      TwinPost(a, b, u, n, w);
      Go(s, a, Work(w, Ret(0, 0), false), a');
      WorkKeeps(b, w, Ret(0, 0), false);
    }
  }

  /** The manager takes the task at the head, which is not u. */
  lemma TakeHead(s: State, a: State, b: State, u: Id, n: SemId, c: Id) returns (a': State, b': State)
    requires Paired(s, a, b, u, n, c) && UnitThere(b) && b.todo[0] != u
    ensures Paired(s, a', b', u, n, c) && b'.manager == Dispatch(b.todo[0]) && b'.todo == b.todo[1..]
    ensures Live(b', b.todo[0]) && !b'.tasks[b.todo[0]].action.FinishedCoroutine?
  {
    var d := b.todo[0];
    var a1, b1 := MainStep(a), MainStep(b);
    PairMain(s, a, b, u, n, c);
    TaskWaits(b1);
    OneRecord(b1, d);
    TakenSleeps(b1, n, c, u);
    PairMain(s, a1, b1, u, n, c);
    a', b' := MainStep(a1), MainStep(b1);
  }

  lemma TakenSleeps(s: State, n: SemId, c: Id, u: Id)
    requires Sleeps(s, n, c, u) && s.manager.Took? && s.todo != [] && Live(s, s.todo[0]) && s.tasks[s.todo[0]].place.InTodo?
    ensures Sleeps(MainStep(s), n, c, u)
  {
  }

  lemma PairChoose(s: State, a: State, b: State, u: Id, n: SemId, c: Id, op: Op)
    requires Paired(s, a, b, u, n, c) && ChooseEnabled(b, op) && Disciplined(b, op) && OffManager(b, u) && PlainOp(op)
    requires Sleeps(ChooseStep(b, op), n, c, u)
    ensures ChooseEnabled(a, op) && Paired(s, ChooseStep(a, op), ChooseStep(b, op), u, n, c)
  {
    TwinChoose(a, b, u, n, op);
    ChooseKeeps(b, op);
    GoChoose(s, a, op, ChooseStep(a, op));
  }

  /** Where a resumed coroutine goes on: at a semaphore it finds its unit. */
  predicate Onward(s: State, d: Id) {
    && s.manager.Running? && s.manager.t == d && s.curr == d && Live(s, d)
    && match s.manager.at
       case User => true
       case GetRet => true
       case SemTest(k) => k in s.sems && s.sems[k].value > 0 && s.sems[k].waiter == Some(d)
       case _ => false
  }

  lemma Started(s: State, d: Id, n: SemId, c: Id, u: Id)
    requires Inv(s) && s.manager == Dispatch(d) && Live(s, d) && !s.tasks[d].action.FinishedCoroutine? && Sleeps(s, n, c, u)
    ensures Onward(MainStep(s), d) && Sleeps(MainStep(s), n, c, u) && MainStep(s).todo == s.todo
  {
    OneManager(s);
    Holding(s, d);
    if !s.tasks[d].action.NewCoroutine? {
      ResumeTouched(s, d);
      var p := s.tasks[d].ctx.point;
      if p.SemTest? { OneSem(s, p.sem); }
    }
  }

  /** The coroutine finishes what it was waiting for. */
  lemma Reawakened(s: State, d: Id, n: SemId, c: Id, u: Id)
    requires Onward(s, d) && s.manager.at != User && Sleeps(s, n, c, u) && c != d
    ensures MainStep(s).manager == Running(d, User) && MainStep(s).curr == d && Live(MainStep(s), d)
    ensures Sleeps(MainStep(s), n, c, u) && MainStep(s).todo == s.todo
  {
  }

  lemma Returned(s: State, d: Id, n: SemId, c: Id, u: Id)
    requires s.manager == Running(d, User) && s.curr == d && Live(s, d) && Sleeps(s, n, c, u) && c != d
    ensures ChooseStep(s, Return).manager == Check(d) && Live(ChooseStep(s, Return), d)
    ensures Sleeps(ChooseStep(s, Return), n, c, u) && ChooseStep(s, Return).todo == s.todo
    ensures ChooseStep(s, Return).tasks[d].place.Abandoned?
  {
  }

  /** The coroutine of the task taken runs to its next choice, and returns. */
  lemma RunOff(s: State, a: State, b: State, u: Id, n: SemId, c: Id, d: Id) returns (a': State, b': State)
    requires Paired(s, a, b, u, n, c) && b.manager == Dispatch(d) && d != u
    requires Live(b, d) && !b.tasks[d].action.FinishedCoroutine?
    ensures Paired(s, a', b', u, n, c) && b'.manager.Waiting? && b'.todo == b.todo
  {
    OneManager(b);
    Started(b, d, n, c, u);
    PairMain(s, a, b, u, n, c);
    a', b' := MainStep(a), MainStep(b);
    if b'.manager.at != User {
      Reawakened(b', d, n, c, u);
      PairMain(s, a', b', u, n, c);
      a', b' := MainStep(a'), MainStep(b');
    }
    a', b' := LeaveAndLetGo(s, a', b', u, n, c, d);
  }

  lemma LeaveAndLetGo(s: State, a: State, b: State, u: Id, n: SemId, c: Id, d: Id) returns (a': State, b': State)
    requires Paired(s, a, b, u, n, c) && b.manager == Running(d, User) && d != u && d != c && b.curr == d && Live(b, d)
    ensures Paired(s, a', b', u, n, c) && b'.manager.Waiting? && b'.todo == b.todo
  {
    Returned(b, d, n, c, u);
    PairChoose(s, a, b, u, n, c, Return);
    a', b' := ChooseStep(a, Return), ChooseStep(b, Return);
    OneManager(b');
    PairMain(s, a', b', u, n, c);
    a', b' := MainStep(a'), MainStep(b');
  }

  /** Task by task, until u is at the head and the manager has the unit to take it. */
  lemma DriveToHead(s: State, a: State, b: State, u: Id, n: SemId, c: Id) returns (a': State, b': State)
    requires Paired(s, a, b, u, n, c) && b.manager.Waiting?
    ensures Paired(s, a', b', u, n, c) && b'.manager.Took? && b'.todo != [] && b'.todo[0] == u
    decreases |b.todo|
  {
    a', b' := FetchUnit(s, a, b, u, n, c);
    if b'.todo[0] == u {
      PairMain(s, a', b', u, n, c);
      a', b' := MainStep(a'), MainStep(b');
    } else {
      var d := b'.todo[0];
      a', b' := TakeHead(s, a', b', u, n, c);
      a', b' := RunOff(s, a', b', u, n, c, d);
      a', b' := DriveToHead(s, a', b', u, n, c);
    }
  }

  // ----- the end: u overwrites c -----

  /** What the manager thread does next with the activated u: it tests n again, and finds no unit. */
  function Retested(s: State): State
    requires s.manager.Took? && s.todo != [] && Live(s, s.todo[0])
    requires var k := s.tasks[s.todo[0]]; k.action.SemActivation? && k.ctx.Saved? && k.ctx.point != User
  {
    MainStep(MainStep(MainStep(s)))
  }

  /** Whatever still holds c after that held it before, and was not semaphore n. */
  lemma HeldBefore(a: State, b: State, u: Id, n: SemId, c: Id, h: Holder)
    requires Twin(a, b, u, n) && Sleeps(b, n, c, u) && b.manager.Took? && b.todo != [] && b.todo[0] == u && Live(b, u)
    requires Holds(Retested(a), h, c)
    ensures Holds(b, h, c) && h != Semaphore(n)
  {
  }

  lemma Overwrites(a: State, b: State, u: Id, n: SemId, c: Id)
    requires Inv(b) && Twin(a, b, u, n) && Sleeps(b, n, c, u) && b.manager.Took? && b.todo != [] && b.todo[0] == u
    ensures Live(a, u) && Dropped(Retested(a), c)
  {
    OneRecord(b, u);
    OneRecord(b, c);
    forall h | Holds(Retested(a), h, c) ensures false {
      HeldBefore(a, b, u, n, c, h);
      HoldsOnly(b, h, c);
    }
  }

  lemma ReachRetested(s: State, a: State)
    requires Reaches(s, a) && a.manager.Took? && a.todo != [] && Live(a, a.todo[0])
    requires var k := a.tasks[a.todo[0]]; k.action.SemActivation? && k.ctx.Saved? && k.ctx.point != User
    ensures Reaches(s, Retested(a))
  {
    GoMain(s, a, MainStep(a));
    GoMain(s, MainStep(a), MainStep(MainStep(a)));
    GoMain(s, MainStep(MainStep(a)), Retested(a));
  }

  // ----- the beginning: c waits twice while the activation of u is pending -----

  /** Coroutine c runs; u is the waiter of n and its activation is pending in todo_queue. */
  predicate ActivationPending(s: State, c: Id, u: Id, n: SemId) {
    && s.manager == Running(c, User) && s.curr == c && Live(s, c) && u != c && Live(s, u)
    && n in s.sems && s.sems[n].waiter == Some(u) && s.sems[n].value == 1
    && u in s.todo && s.tasks[u].place.InTodo? && s.tasks[u].action.SemActivation? && s.tasks[u].ctx == Saved(SemTest(n))
  }

  lemma IsPending(s: State, n: SemId, u: Id)
    requires Inv(s) && ChooseEnabled(s, SemWait(n)) && n in s.sems && s.sems[n].waiter == Some(u) && s.sems[n].value > 0
    ensures ActivationPending(s, s.manager.t, u, n)
  {
    OneManager(s);
    OneSem(s, n);
    Holding(s, u);
    BothQueues(s);
  }

  /** The same state, but u has merely yielded and n has no waiter. */
  function Disguised(s: State, u: Id, n: SemId): State
    requires u in s.tasks && n in s.sems
  {
    s.(tasks := s.tasks[u := s.tasks[u].(action := SchedYield, ctx := Saved(User))],
       sems := s.sems[n := s.sems[n].(waiter := None)])
  }

  lemma DisguisedHolders(s: State, c: Id, u: Id, n: SemId)
    requires ActivationPending(s, c, u, n)
    ensures var s' := Disguised(s, u, n); Only(s, s', {c, u}) && SameHolders(s, s') && HoldersKept(s, s', {c, u})
  {
  }

  lemma DisguisedRecords(s: State, c: Id, u: Id, n: SemId)
    requires ActivationPending(s, c, u, n) && TouchedOk(s, c) && TouchedOk(s, u) && SemOk(s, n)
    ensures var s' := Disguised(s, u, n); TouchedOk(s', c) && TouchedOk(s', u) && SemOk(s', n)
  {
  }

  lemma DisguisedTouch(s: State, c: Id, u: Id, n: SemId)
    requires SemsOk(s) && ActivationPending(s, c, u, n) && TouchedOk(s, c) && TouchedOk(s, u) && SemOk(s, n)
    requires s.tasks[c].place.AtManager?
    ensures Touch(s, Disguised(s, u, n), {c, u}, {n})
  {
    DisguisedHolders(s, c, u, n);
    DisguisedRecords(s, c, u, n);
    NotWaiting(s, c);
    forall m | m in s.sems && s.sems[m].waiter == Some(u) ensures m == n { assert SemOk(s, m); }
  }

  lemma DisguisedEach(s: State, c: Id, u: Id, n: SemId)
    requires Inv(s) && ActivationPending(s, c, u, n)
    ensures EachOk(Disguised(s, u, n))
  {
    ChoosingNow(s, c);
    Holding(s, u);
    OneSem(s, n);
    AllSems(s);
    DisguisedTouch(s, c, u, n);
    TouchStep(s, Disguised(s, u, n), {c, u}, {n});
  }

  lemma DisguisedInv(s: State, c: Id, u: Id, n: SemId)
    requires Inv(s) && ActivationPending(s, c, u, n)
    ensures Inv(Disguised(s, u, n))
  {
    var s' := Disguised(s, u, n);
    DisguisedEach(s, c, u, n);
    OpenCore(s);
    QueuesAside(s, s', u);
    CloseCore(s');
  }

  /** After c has taken the unit, the state and its disguise differ in u alone. */
  lemma FirstWait(s: State, c: Id, u: Id, n: SemId)
    requires Inv(s) && ActivationPending(s, c, u, n)
    ensures var a, b := WaitedToo(s, n), WaitedToo(Disguised(s, u, n), n);
            && Inv(b) && Twin(a, b, u, n) && OffManager(b, u) && b.manager == Running(c, User) && b.curr == c
            && n in b.sems && b.sems[n].waiter.None? && b.sems[n].value == 0
  {
    var d := Disguised(s, u, n);
    DisguisedInv(s, c, u, n);
    ChooseKeeps(d, SemWait(n));
    MainKeeps(ChooseStep(d, SemWait(n)));
  }

  /** Waiting once more, c parks. */
  lemma SecondPark(a: State, b: State, u: Id, n: SemId, c: Id) returns (a': State, b': State)
    requires Inv(b) && Twin(a, b, u, n) && OffManager(b, u) && b.manager == Running(c, User) && b.curr == c
    requires n in b.sems && b.sems[n].waiter.None? && b.sems[n].value == 0
    ensures Paired(a, a', b', u, n, c) && b'.manager.Waiting?
  {
    var op := SemWait(n);
    Stay(a);
    TwinChoose(a, b, u, n, op);
    ChooseKeeps(b, op);
    GoChoose(a, a, op, ChooseStep(a, op));
    var a2, b2 := ChooseStep(a, op), ChooseStep(b, op);
    TwinMain(a2, b2, u, n);
    MainKeeps(b2);
    GoMain(a, a2, MainStep(a2));
    a', b' := SwapAndLetGo(a, MainStep(a2), MainStep(b2), u, n, c);
  }

  lemma SwapAndLetGo(s: State, a: State, b: State, u: Id, n: SemId, c: Id) returns (a': State, b': State)
    requires Paired(s, a, b, u, n, c) && b.manager == Running(c, Swap(SemTest(n))) && b.curr == c
    ensures Paired(s, a', b', u, n, c) && b'.manager.Waiting?
  {
    OneManager(b);
    PairMain(s, a, b, u, n, c);
    a', b' := MainStep(a), MainStep(b);
    OneManager(b');
    PairMain(s, a', b', u, n, c);
    a', b' := MainStep(a'), MainStep(b');
  }

  // ----- the theorem -----

  /** With the value positive the loss comes later; this run leads there. */
  lemma LosesLater(s: State, c: Id, u: Id, n: SemId)
    requires Inv(s) && ActivationPending(s, c, u, n)
    ensures !SafeForEver(WaitedToo(s, n))
  {
    FirstWait(s, c, u, n);
    var a0, b0 := WaitedToo(s, n), WaitedToo(Disguised(s, u, n), n);
    var a, b := SecondPark(a0, b0, u, n, c);
    a, b := DriveToHead(a0, a, b, u, n, c);
    Overwrites(a, b, u, n, c);
    ReachRetested(a0, a);
    DroppedIsUnsafe(a0, Retested(a), c);
  }

  /** With the value 0 the first waiter is dropped at once. */
  lemma LosesAtOnce(s: State, n: SemId, u: Id)
    requires Inv(s) && ChooseEnabled(s, SemWait(n)) && n in s.sems && s.sems[n].waiter == Some(u) && s.sems[n].value == 0
    ensures Live(s, s.curr) && Dropped(WaitedToo(s, n), u)
  {
    OneManager(s);
    OneSem(s, n);
    OneRecord(s, u);
    forall h | Holds(WaitedToo(s, n), h, u) ensures false {
      Overwritten(s, n, u, h);
      HoldsOnly(s, h, u);
    }
  }

  /** For any state of the invariant. */
  lemma SafeIffUnwaited(s: State, n: SemId)
    requires Inv(s) && ChooseEnabled(s, SemWait(n)) && n in s.sems
    ensures Live(s, s.curr) && (SafeForEver(WaitedToo(s, n)) <==> s.sems[n].waiter.None?)
  {
    OneManager(s);
    match s.sems[n].waiter
    case None =>
      ChooseKeeps(s, SemWait(n));
      MainKeeps(ChooseStep(s, SemWait(n)));
      InvIsSafe(WaitedToo(s, n));
    case Some(u) =>
      OneSem(s, n);
      if s.sems[n].value > 0 {
        IsPending(s, n, u);
        LosesLater(s, s.manager.t, u, n);
      } else {
        LosesAtOnce(s, n, u);
        Stay(WaitedToo(s, n));
        DroppedIsUnsafe(WaitedToo(s, n), WaitedToo(s, n), u);
      }
  }

  /**
   In every run: when a coroutine waits on a semaphore, whatever happens afterwards within the
   discipline drops nobody if and only if no waiter is recorded. A positive value does not help.
  */
  lemma SecondWaiterIff(workers: nat, es: seq<Event>, n: SemId)
    requires workers >= 1 && Possible(Init(workers), es)
    requires var s := After(Init(workers), es); ChooseEnabled(s, SemWait(n)) && n in s.sems
    ensures var s := After(Init(workers), es);
            Live(s, s.curr) && (SafeForEver(WaitedToo(s, n)) <==> s.sems[n].waiter.None?)
  {
    RunInv(workers, es);
    SafeIffUnwaited(After(Init(workers), es), n);
  }

  /**
   In every run: below INT_MAX the discipline forbids exactly the posts that queue a task twice, and
   exactly the waits after which some continuation drops a coroutine.
  */
  lemma DisciplineExact(workers: nat, es: seq<Event>, n: SemId, front: bool)
    requires workers >= 1 && Possible(Init(workers), es)
    requires var s := After(Init(workers), es);
             s.manager.Running? && s.manager.at == User && n in s.sems && s.sems[n].value < INT_MAX
    ensures var s := After(Init(workers), es);
            && (Disciplined(s, SemPost(n, front)) <==> NoDup(Posted(s, n, front).todo))
            && Live(s, s.curr) && (Disciplined(s, SemWait(n)) <==> SafeForEver(WaitedToo(s, n)))
  {
    PostSafeIff(workers, es, n, front);
    SecondWaiterIff(workers, es, n);
  }
}
