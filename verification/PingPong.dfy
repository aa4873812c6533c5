/** The two-semaphore ping-pong of `master` and `slave`, for every number of rounds. */
module PingPong {
  import opened Actions
  import opened Scheduler
  import opened Seqs
  import opened Invariant
  import opened Runs
  import Deadlock
  import Bounds

  /** The j-th operation of `master`, which plays n rounds: coroutine 0. */
  function MasterOp(n: nat, j: nat): Op {
    if j == 0 then SemInit(0, 0)
    else if j == 1 then SemInit(1, 0)
    else if j == 2 then Create
    else if j < 3 + 2 * n then (if j % 2 == 1 then SemPost(0, false) else SemWait(1))
    else Exit
  }

  /** The j-th operation of `slave`: coroutine 1. */
  function SlaveOp(n: nat, j: nat): Op {
    if j < 2 * n then (if j % 2 == 0 then SemWait(0) else SemPost(1, false)) else Exit
  }

  function PlayerOp(n: nat, t: Id, j: nat): Op {
    if t == 0 then MasterOp(n, j) else SlaveOp(n, j)
  }

  /** main creates `master`, once; the two coroutines run their code. */
  predicate Move(s: State, e: Event, n: nat) {
    && (e.Begin? ==> s.logs == [])
    && (e.Choose? && s.manager.Running? && s.manager.t < |s.logs| ==>
          e.op == PlayerOp(n, s.manager.t, s.logs[s.manager.t].ops))
  }

  /** The events are a game of n rounds, as far as it has got. */
  predicate Game(s: State, es: seq<Event>, n: nat)
    requires Possible(s, es)
    decreases |es|
  {
    es == [] || (Game(s, es[..|es| - 1], n) && Move(After(s, es[..|es| - 1]), es[|es| - 1], n))
  }

  // ----- the invariant of the game -----

  /** Coroutine t is inside crt_sem_wait(k). */
  predicate Waits(s: State, t: Id, k: SemId) {
    t in s.tasks && Cont(s.tasks[t], RunPoint(s.manager, t)) == Some(SemTest(k))
  }

  function InWait(s: State, t: Id, k: SemId): nat { if Waits(s, t, k) then 1 else 0 }

  function Ops(s: State, t: Id): nat { if t < |s.logs| then s.logs[t].ops else 0 }

  function Min(x: int, y: int): int { if x < y then x else y }

  /** Loop operations done by master and by slave. */
  function MasterLoop(s: State, n: nat): int { Min(Ops(s, 0), 3 + 2 * n) - 3 }
  function SlaveLoop(s: State, n: nat): int { Min(Ops(s, 1), 2 * n) }

  /** Neither coroutine ever issues a request or returns without crt_exit. */
  predicate LogQuiet(l: Log, last: nat) {
    l.issued == [] && l.ops <= last + 1 && (l.exited <==> l.ops == last + 1) && !EndsWith(l, Return)
  }

  ghost predicate Setup(s: State, n: nat) {
    && |s.logs| <= 2 && (|s.logs| == 2 <==> Ops(s, 0) >= 3)
    && (|s.logs| > 0 ==> LogQuiet(s.logs[0], 3 + 2 * n))
    && (|s.logs| > 1 ==> LogQuiet(s.logs[1], 2 * n))
    && (forall k: SemId :: k in s.sems <==> k < Min(Ops(s, 0), 2))
    && (forall k :: k in s.sems ==> s.sems[k].init == 0)
  }

  /** Posts are those of the operations done; a wait counts once it has left crt_sem_wait. */
  predicate Counted(s: State, n: nat) {
    && (0 in s.sems ==> s.sems[0].posts == Max0((MasterLoop(s, n) + 1) / 2)
                        && s.sems[0].waits + InWait(s, 1, 0) == (SlaveLoop(s, n) + 1) / 2)
    && (1 in s.sems ==> s.sems[1].posts == SlaveLoop(s, n) / 2
                        && s.sems[1].waits + InWait(s, 0, 1) == Max0(MasterLoop(s, n) / 2))
  }

  function Max0(x: int): nat { if x < 0 then 0 else x }

  /** Master waits on semaphore 1 after an even number of loop operations, slave on 0 after an odd one. */
  ghost predicate WaitsInTurn(s: State, n: nat) {
    forall t, k {:trigger Waits(s, t, k)} :: Waits(s, t, k) ==>
      || (t == 0 && k == 1 && MasterLoop(s, n) > 0 && MasterLoop(s, n) % 2 == 0 && Ops(s, 0) <= 3 + 2 * n)
      || (t == 1 && k == 0 && SlaveLoop(s, n) % 2 == 1 && Ops(s, 1) <= 2 * n)
  }

  ghost predicate GameOk(s: State, n: nat) {
    Setup(s, n) && Counted(s, n) && WaitsInTurn(s, n)
  }

  // ----- what the steps of the runtime do to waiting and counting -----

  predicate SameSems(s: State, s': State) {
    s'.sems.Keys == s.sems.Keys && forall k :: k in s.sems ==>
      s'.sems[k].posts == s.sems[k].posts && s'.sems[k].waits == s.sems[k].waits && s'.sems[k].init == s.sems[k].init
  }

  predicate SameLogs(s: State, s': State) {
    && |s'.logs| == |s.logs|
    && forall t {:trigger s'.logs[t]} :: 0 <= t < |s.logs| ==>
         && s'.logs[t].ops == s.logs[t].ops && s'.logs[t].trace == s.logs[t].trace
         && s'.logs[t].issued == s.logs[t].issued && s'.logs[t].exited == s.logs[t].exited
  }

  ghost predicate SameWaits(s: State, s': State) {
    forall t, k {:trigger Waits(s', t, k)} :: Waits(s', t, k) <==> Waits(s, t, k)
  }

  /** A step that neither starts nor ends an operation leaves the game where it was. */
  lemma Unmoved(s: State, s': State, n: nat)
    requires GameOk(s, n) && SameSems(s, s') && SameLogs(s, s') && SameWaits(s, s')
    ensures GameOk(s', n)
  {
    assert InWait(s', 1, 0) == InWait(s, 1, 0) && InWait(s', 0, 1) == InWait(s, 0, 1);
    assert Ops(s', 0) == Ops(s, 0) && Ops(s', 1) == Ops(s, 1);
  }

  /** The manager between two coroutines. */
  predicate LoopReady(s: State) {
    && MainEnabled(s) && !s.manager.Running?
    && (s.manager.Took? ==> s.todo != [] && Live(s, s.todo[0]))
    && (s.manager.Dispatch? ==>
          var t := s.manager.t;
          && Live(s, t) && (s.tasks[t].action.FinishedCoroutine? ==> s.curr == t)
          && (if IsResumable(s.tasks[t].action)
              then s.tasks[t].ctx.Saved? && Target(s.tasks[t].ctx.point) == s.tasks[t].ctx.point
              else s.tasks[t].ctx.NoContext?))
  }

  lemma ReadyLoop(s: State)
    requires Inv(s) && MainEnabled(s) && !s.manager.Running?
    requires s.manager.Dispatch? ==> Live(s, s.manager.t) && RecordOk(s, s.manager.t)
    ensures LoopReady(s)
  {
    Open(s);
    if s.manager.Took? { TaskWaits(s); }
  }

  lemma LoopUnmoved(s: State)
    requires LoopReady(s)
    ensures SameSems(s, MainStep(s)) && SameLogs(s, MainStep(s)) && SameWaits(s, MainStep(s))
  {
  }

  lemma ContinueWaits(s: State, t: Id, at: Point)
    requires ManagerOk(s) && s.manager == Running(t, at) && at != User && !at.GetRet? && RecordOk(s, t)
    requires at.SemTest? ==> s.sems[at.sem].value <= 0
    requires |s.pipes| >= 1
    ensures SameWaits(s, MainStep(s))
  {
  }

  lemma ContinueUnmoved(s: State, t: Id, at: Point)
    requires ManagerOk(s) && s.manager == Running(t, at) && at != User && !at.GetRet? && RecordOk(s, t)
    requires at.SemTest? ==> s.sems[at.sem].value <= 0
    requires |s.pipes| >= 1
    ensures SameSems(s, MainStep(s)) && SameLogs(s, MainStep(s)) && SameWaits(s, MainStep(s))
  {
    ContinueWaits(s, t, at);
  }

  predicate SameContexts(s: State, s': State) {
    s'.manager == s.manager && s'.tasks.Keys == s.tasks.Keys && forall t :: t in s.tasks ==> s'.tasks[t].ctx == s.tasks[t].ctx
  }

  lemma SameContextsWait(s: State, s': State)
    requires SameContexts(s, s')
    ensures SameWaits(s, s')
  {
  }

  lemma WorkContexts(s: State, w: nat, raw: Ret, immediate: bool)
    requires WorkEnabled(s, w)
    ensures SameContexts(s, WorkStep(s, w, raw, immediate))
  {
  }

  lemma WorkWaits(s: State, w: nat, raw: Ret, immediate: bool)
    requires WorkEnabled(s, w)
    ensures SameWaits(s, WorkStep(s, w, raw, immediate))
  {
    WorkContexts(s, w, raw, immediate);
    SameContextsWait(s, WorkStep(s, w, raw, immediate));
  }

  lemma WorkUnmoved(s: State, w: nat, raw: Ret, immediate: bool)
    requires WorkEnabled(s, w)
    ensures var s' := WorkStep(s, w, raw, immediate); SameSems(s, s') && SameLogs(s, s') && SameWaits(s, s')
  {
    WorkWaits(s, w, raw, immediate);
  }

  lemma FireUnmoved(s: State, w: nat, t: Id, timer: bool, raw: Option<Ret>)
    requires FireEnabled(s, w, t, timer, raw)
    ensures var s' := FireStep(s, w, t, timer, raw); SameSems(s, s') && SameLogs(s, s') && SameWaits(s, s')
  {
  }

  // ----- the moves of the game -----

  /** The counts of the four operations are never more than one apart, in this order. */
  lemma Ordered(s: State, n: nat)
    requires SemsOk(s) && Setup(s, n) && Counted(s, n) && WaitsInTurn(s, n) && 1 in s.sems
    ensures 0 in s.sems && s.sems[0].init == 0 && s.sems[1].init == 0
    ensures s.sems[1].waits <= s.sems[1].posts <= s.sems[0].waits <= s.sems[0].posts <= s.sems[1].waits + 1
    ensures 0 <= s.sems[0].value == s.sems[0].posts - s.sems[0].waits
    ensures 0 <= s.sems[1].value == s.sems[1].posts - s.sems[1].waits
  {
    assert SemOk(s, 0) && SemOk(s, 1);
    assert Waits(s, 0, 1) ==> MasterLoop(s, n) % 2 == 0;
    assert Waits(s, 1, 0) ==> SlaveLoop(s, n) % 2 == 1;
  }

  /** A recorded waiter is inside crt_sem_wait of that semaphore. */
  lemma WaiterWaits(s: State, k: SemId)
    requires SemsOk(s) && RecordsOk(s) && k in s.sems && s.sems[k].waiter.Some?
    ensures Waits(s, s.sems[k].waiter.value, k)
  {
    assert SemOk(s, k) && RecordOk(s, s.sems[k].waiter.value);
  }

  predicate Plays(s: State, n: nat, t: Id, op: Op) {
    && s.manager == Running(t, User) && Live(s, t) && s.curr == t && s.tasks[t].ctx.NoContext?
    && op == PlayerOp(n, t, s.logs[t].ops)
  }

  /** In user code the coroutine is in no crt_sem_wait and has not called crt_exit. */
  lemma AtPlay(s: State, n: nat, op: Op)
    requires Inv(s) && Setup(s, n) && ChooseEnabled(s, op)
    requires s.manager.t < |s.logs| ==> op == PlayerOp(n, s.manager.t, s.logs[s.manager.t].ops)
    ensures Plays(s, n, s.manager.t, op) && !s.logs[s.manager.t].exited
    ensures !Waits(s, s.manager.t, 0) && !Waits(s, s.manager.t, 1) && s.manager.t < 2
  {
    Open(s);
    assert RecordOk(s, s.manager.t);
  }

  /** No move breaks the discipline: in particular no second post while an activation is pending. */
  lemma MovesDisciplined(s: State, n: nat, t: Id, op: Op)
    requires SemsOk(s) && RecordsOk(s) && GameOk(s, n) && Plays(s, n, t, op) && t < 2 && !s.logs[t].exited
    requires !Waits(s, t, 0) && !Waits(s, t, 1)
    ensures Disciplined(s, op)
  {
    if op.SemWait? || op.SemPost? {
      assert 1 in s.sems;
      Ordered(s, n);
      if op.SemWait? && s.sems[op.k].waiter.Some? { WaiterWaits(s, op.k); }
    }
  }

  /** What an operation of the game does to histories, semaphores and waiting. */
  ghost predicate OpShape(s: State, s': State, t: Id, op: Op) {
    && t < |s.logs| && |s'.logs| == |s.logs| + (if op.Create? then 1 else 0)
    && (op.Create? ==> s'.logs[|s.logs|] == EmptyLog)
    && (forall u {:trigger s'.logs[u]} :: 0 <= u < |s.logs| && u != t ==> s'.logs[u] == s.logs[u])
    && s'.logs[t].ops == s.logs[t].ops + 1 && s'.logs[t].issued == s.logs[t].issued
    && s'.logs[t].trace == s.logs[t].trace + [Issued(op)] && s'.logs[t].exited == (s.logs[t].exited || op.Exit?)
    && SemShape(s, s', op)
    && (forall u, k {:trigger Waits(s', u, k)} :: Waits(s', u, k) <==> Waits(s, u, k) || (u == t && op == SemWait(k)))
  }

  ghost predicate SemShape(s: State, s': State, op: Op) {
    && s'.sems.Keys == s.sems.Keys + (if op.SemInit? then {op.k} else {})
    && (op.SemInit? ==> s'.sems[op.k] == Sem(op.v, None, op.v, 0, 0))
    && (forall k :: k in s.sems && !op.SemInit? ==>
          && s'.sems[k].posts == s.sems[k].posts + (if op.SemPost? && op.k == k then 1 else 0)
          && s'.sems[k].waits == s.sems[k].waits && s'.sems[k].init == s.sems[k].init)
    && (forall k :: k in s.sems && op.SemInit? && k != op.k ==> s'.sems[k] == s.sems[k])
  }

  lemma OpShapes(s: State, n: nat, t: Id, op: Op)
    requires Plays(s, n, t, op) && !Waits(s, t, 0) && !Waits(s, t, 1) && |s.logs| !in s.tasks && ChooseEnabled(s, op)
    requires op.SemPost? ==> op.k in s.sems && (s.sems[op.k].waiter.Some? ==> Live(s, s.sems[op.k].waiter.value))
    requires !op.Call? && !op.Yield? && !op.Return?
    ensures OpShape(s, ChooseStep(s, op), t, op)
  {
  }

  lemma ShapeSetup(s: State, s': State, n: nat, t: Id, op: Op)
    requires Setup(s, n) && t < 2 && OpShape(s, s', t, op) && op == PlayerOp(n, t, s.logs[t].ops) && !s.logs[t].exited
    ensures Setup(s', n)
  {
  }

  lemma MasterLoopCounted(s: State, s': State, n: nat, op: Op)
    requires GameOk(s, n) && OpShape(s, s', 0, op) && op == MasterOp(n, s.logs[0].ops) && !s.logs[0].exited
    requires op.SemPost? || op.SemWait?
    requires !Waits(s, 0, 0) && !Waits(s, 0, 1)
    ensures Counted(s', n)
  {
    assert Waits(s', 1, 0) <==> Waits(s, 1, 0);
    assert Waits(s', 0, 1) <==> op == SemWait(1);
    assert Ops(s', 1) == Ops(s, 1) && Ops(s', 0) == Ops(s, 0) + 1;
  }

  lemma MasterRestCounted(s: State, s': State, n: nat, op: Op)
    requires GameOk(s, n) && OpShape(s, s', 0, op) && op == MasterOp(n, s.logs[0].ops) && !s.logs[0].exited
    requires !op.SemPost? && !op.SemWait?
    requires !Waits(s, 0, 0) && !Waits(s, 0, 1)
    ensures Counted(s', n)
  {
    assert Waits(s', 1, 0) <==> Waits(s, 1, 0);
    assert Waits(s', 0, 1) <==> op == SemWait(1);
    assert Ops(s', 1) == Ops(s, 1) && Ops(s', 0) == Ops(s, 0) + 1;
  }

  lemma MasterCounted(s: State, s': State, n: nat, op: Op)
    requires GameOk(s, n) && OpShape(s, s', 0, op) && op == MasterOp(n, s.logs[0].ops) && !s.logs[0].exited
    requires !Waits(s, 0, 0) && !Waits(s, 0, 1)
    ensures Counted(s', n)
  {
    if op.SemPost? || op.SemWait? { MasterLoopCounted(s, s', n, op); } else { MasterRestCounted(s, s', n, op); }
  }

  lemma MasterInTurn(s: State, s': State, n: nat, op: Op)
    requires GameOk(s, n) && OpShape(s, s', 0, op) && op == MasterOp(n, s.logs[0].ops) && !s.logs[0].exited
    requires !Waits(s, 0, 0) && !Waits(s, 0, 1)
    ensures WaitsInTurn(s', n)
  {
    assert Ops(s', 1) == Ops(s, 1) && Ops(s', 0) == Ops(s, 0) + 1;
  }

  lemma SlaveCounted(s: State, s': State, n: nat, op: Op)
    requires GameOk(s, n) && OpShape(s, s', 1, op) && op == SlaveOp(n, s.logs[1].ops) && !s.logs[1].exited
    requires !Waits(s, 1, 0) && !Waits(s, 1, 1)
    ensures Counted(s', n) && WaitsInTurn(s', n)
  {
    assert Waits(s', 0, 1) <==> Waits(s, 0, 1);
    assert Waits(s', 1, 0) <==> op == SemWait(0);
    assert Ops(s', 0) == Ops(s, 0) && Ops(s', 1) == Ops(s, 1) + 1;
  }

  /** A choice is one operation more, a creation by main one game more. */
  predicate OpsCounted(s: State, s': State, e: Event) {
    && Ops(s', 0) + Ops(s', 1) == Ops(s, 0) + Ops(s, 1) + (if e.Choose? then 1 else 0)
    && Begun(s') == Begun(s) + (if e.Begin? then 1 else 0)
  }

  function Begun(s: State): nat { if s.logs == [] then 0 else 1 }

  lemma ShapeOps(s: State, s': State, t: Id, op: Op)
    requires t < 2 && OpShape(s, s', t, op) && (op.Create? ==> t == 0 && |s.logs| == 1)
    ensures OpsCounted(s, s', Choose(op))
  {
    assert Ops(s', 1 - t) == Ops(s, 1 - t);
  }

  lemma PlayMove(s: State, n: nat, t: Id, op: Op)
    requires GameOk(s, n) && Plays(s, n, t, op) && t < 2 && !s.logs[t].exited && ChooseEnabled(s, op)
    requires !Waits(s, t, 0) && !Waits(s, t, 1) && |s.logs| !in s.tasks
    requires op.SemPost? ==> op.k in s.sems && (s.sems[op.k].waiter.Some? ==> Live(s, s.sems[op.k].waiter.value))
    ensures GameOk(ChooseStep(s, op), n) && OpShape(s, ChooseStep(s, op), t, op)
  {
    var s' := ChooseStep(s, op);
    OpShapes(s, n, t, op);
    ShapeSetup(s, s', n, t, op);
    if t == 0 {
      MasterCounted(s, s', n, op);
      MasterInTurn(s, s', n, op);
    } else {
      SlaveCounted(s, s', n, op);
    }
  }

  lemma ChooseMove(s: State, n: nat, op: Op)
    requires Inv(s) && GameOk(s, n) && ChooseEnabled(s, op)
    requires s.manager.t < |s.logs| ==> op == PlayerOp(n, s.manager.t, s.logs[s.manager.t].ops)
    ensures Disciplined(s, op) && GameOk(ChooseStep(s, op), n)
    ensures OpsCounted(s, ChooseStep(s, op), Choose(op))
  {
    Open(s);
    var t := s.manager.t;
    AtPlay(s, n, op);
    MovesDisciplined(s, n, t, op);
    FreshNumber(s);
    if op.SemPost? { assert SemOk(s, op.k); }
    PlayMove(s, n, t, op);
    ShapeOps(s, ChooseStep(s, op), t, op);
  }

  /** A wait that finds a unit is over. */
  lemma TakeMove(s: State, n: nat, t: Id, k: SemId)
    requires ManagerOk(s) && GameOk(s, n) && s.manager == Running(t, SemTest(k)) && s.sems[k].value > 0
    ensures GameOk(MainStep(s), n) && SameLogs(s, MainStep(s))
  {
    var s' := MainStep(s);
    assert Waits(s, t, k);
    assert forall u, m :: Waits(s', u, m) <==> Waits(s, u, m) && u != t;
    assert InWait(s', 1 - t, t) == InWait(s, 1 - t, t);
  }

  lemma ContinueMove(s: State, n: nat, t: Id, at: Point)
    requires ManagerOk(s) && GameOk(s, n) && s.manager == Running(t, at)
    requires at != User && RecordOk(s, t) && |s.pipes| >= 1
    ensures GameOk(MainStep(s), n) && SameLogs(s, MainStep(s))
  {
    if at.SemTest? && s.sems[at.sem].value > 0 {
      TakeMove(s, n, t, at.sem);
    } else {
      ContinueUnmoved(s, t, at);
      Unmoved(s, MainStep(s), n);
    }
  }

  lemma MainMove(s: State, n: nat)
    requires Inv(s) && GameOk(s, n) && MainEnabled(s)
    ensures GameOk(MainStep(s), n) && OpsCounted(s, MainStep(s), Main)
  {
    OneManager(s);
    if s.manager.Running? {
      AllTallies(s);
      OneRecord(s, s.manager.t);
      ContinueMove(s, n, s.manager.t, s.manager.at);
    } else {
      if s.manager.Dispatch? { OneRecord(s, s.manager.t); }
      ReadyLoop(s);
      LoopMove(s, n);
    }
  }

  lemma LoopMove(s: State, n: nat)
    requires LoopReady(s) && GameOk(s, n)
    ensures GameOk(MainStep(s), n) && OpsCounted(s, MainStep(s), Main)
  {
    LoopUnmoved(s);
    Unmoved(s, MainStep(s), n);
  }

  lemma BeginMove(s: State, n: nat)
    requires GameOk(s, n) && s.logs == [] && s.tasks == map[] && !s.manager.Running?
    ensures GameOk(BeginStep(s), n) && OpsCounted(s, BeginStep(s), Begin)
  {
  }

  lemma FirstMove(s: State, n: nat)
    requires Inv(s) && GameOk(s, n) && s.logs == []
    ensures GameOk(BeginStep(s), n) && OpsCounted(s, BeginStep(s), Begin)
  {
    Open(s);
    NoRecords(s);
    BeginMove(s, n);
  }

  lemma OtherMove(s: State, e: Event, n: nat)
    requires GameOk(s, n) && Enabled(s, e) && !e.Main? && !e.Choose? && !e.Begin?
    ensures GameOk(Step(s, e), n) && OpsCounted(s, Step(s, e), e)
  {
    var s' := Step(s, e);
    match e
    case Work(w, raw, immediate) => WorkUnmoved(s, w, raw, immediate); Unmoved(s, s', n);
    case Fire(w, t, timer, raw) => FireUnmoved(s, w, t, timer, raw); Unmoved(s, s', n);
    case _ => Unmoved(s, s', n);
  }

  /** Any enabled step of the game is allowed, and keeps its invariant. */
  lemma StepMove(s: State, e: Event, n: nat)
    requires Inv(s) && GameOk(s, n) && Enabled(s, e) && Move(s, e, n)
    ensures Allowed(s, e) && GameOk(Step(s, e), n) && OpsCounted(s, Step(s, e), e)
  {
    Open(s);
    match e
    case Main => MainMove(s, n);
    case Choose(op) => ChooseMove(s, n, op);
    case Begin => FirstMove(s, n);
    case _ => OtherMove(s, e, n);
  }

  // ----- whole games -----

  lemma InitGame(workers: nat, n: nat)
    ensures GameOk(Init(workers), n)
  {
  }

  lemma {:induction false} RunGame(workers: nat, es: seq<Event>, n: nat)
    requires workers >= 1 && Possible(Init(workers), es) && Game(Init(workers), es, n)
    ensures GameOk(After(Init(workers), es), n)
    decreases |es|
  {
    if es == [] {
      InitGame(workers, n);
    } else {
      var before := es[..|es| - 1];
      RunGame(workers, before, n);
      RunInv(workers, before);
      StepMove(After(Init(workers), before), es[|es| - 1], n);
    }
  }

  /** The values, and how far the two players have got. */
  predicate InStep(s: State) {
    1 in s.sems ==>
      && 0 in s.sems && 0 <= s.sems[0].value && 0 <= s.sems[1].value && s.sems[0].value + s.sems[1].value <= 1
      && s.sems[1].waits <= s.sems[1].posts <= s.sems[1].waits + 1
  }

  /** Between them the semaphores hold at most one unit, and slave is at most a round ahead. */
  lemma PingPongInStep(workers: nat, es: seq<Event>, n: nat)
    requires workers >= 1 && Possible(Init(workers), es) && Game(Init(workers), es, n)
    ensures InStep(After(Init(workers), es))
  {
    var s := After(Init(workers), es);
    RunInv(workers, es);
    AllSems(s);
    RunGame(workers, es, n);
    if 1 in s.sems { Ordered(s, n); }
  }

  /** A game never breaks the discipline: every step that is enabled and follows the two programs is allowed. */
  lemma PingPongSafe(workers: nat, es: seq<Event>, n: nat, e: Event)
    requires workers >= 1 && Possible(Init(workers), es) && Game(Init(workers), es, n)
    requires var s := After(Init(workers), es); Enabled(s, e) && Move(s, e, n)
    ensures Possible(Init(workers), es + [e]) && Game(Init(workers), es + [e], n)
  {
    RunInv(workers, es);
    RunGame(workers, es, n);
    StepMove(After(Init(workers), es), e, n);
    assert (es + [e])[..|es|] == es;
  }

  /** A player at rest is parked in the semaphore it waits for. */
  lemma RestingPlayer(s: State, n: nat, t: Id)
    requires EachOk(s) && GameOk(s, n) && t in s.tasks && Deadlock.AtRest(s, t)
    ensures t < 2 && 1 - t in s.sems && Waits(s, t, 1 - t) && s.sems[1 - t].value == 0
  {
    OpenEach(s);
    assert RecordOk(s, t);
    assert t in s.watch ==> WatchOk(s, t);
    if Deadlock.Parked(s, t) {
      var k :| k in s.sems && s.sems[k].waiter == Some(t) && s.sems[k].value == 0;
      WaiterWaits(s, k);
    }
  }

  /** Nobody is stuck inside a game: the counts leave no state in which both players wait in vain. */
  lemma NobodyWaitsInVain(s: State, n: nat)
    requires SemsOk(s) && GameOk(s, n) && 1 in s.sems
    requires Waits(s, 0, 1) || (|s.logs| > 0 && s.logs[0].exited)
    requires Waits(s, 1, 0) || (|s.logs| > 1 && s.logs[1].exited)
    requires (Waits(s, 0, 1) ==> s.sems[1].value == 0) && (Waits(s, 1, 0) ==> s.sems[0].value == 0)
    ensures !Waits(s, 0, 1) && !Waits(s, 1, 0) && s.sems[0].value == 0 && s.sems[1].value == 0
  {
    Ordered(s, n);
  }

  predicate Over(s: State, n: nat) {
    && s.tasks == map[] && |s.logs| == 2
    && 0 in s.sems && 1 in s.sems && s.sems[0].value == 0 && s.sems[1].value == 0
    && s.sems[0].posts == s.sems[0].waits == s.sems[1].posts == s.sems[1].waits == n
  }

  lemma RestingGame(s: State, n: nat)
    requires EachOk(s) && GameOk(s, n) && s.logs != [] && forall t :: t in s.tasks ==> Deadlock.AtRest(s, t)
    ensures Over(s, n)
  {
    OpenEach(s);
    if 0 in s.tasks { RestingPlayer(s, n, 0); } else { assert LogOk(s, 0); }
    assert |s.logs| == 2;
    if 1 in s.tasks { RestingPlayer(s, n, 1); } else { assert LogOk(s, 1); }
    NobodyWaitsInVain(s, n);
    assert s.tasks == map[] by { assert forall t :: t in s.tasks ==> t < 2; }
    Ordered(s, n);
  }

  /** When a game that has begun can go no further, both players have played n rounds and are freed. */
  lemma PingPongEnds(workers: nat, es: seq<Event>, n: nat)
    requires workers >= 1 && Possible(Init(workers), es) && Game(Init(workers), es, n)
    requires Deadlock.Stuck(After(Init(workers), es)) && After(Init(workers), es).logs != []
    ensures Over(After(Init(workers), es), n)
  {
    var s := After(Init(workers), es);
    Deadlock.StuckMeansWaiting(workers, es);
    RunInv(workers, es);
    Open(After(Init(workers), es));
    RunGame(workers, es, n);
    RestingGame(s, n);
  }

  /** A game that is not stuck goes on. */
  lemma PingPongGoesOn(workers: nat, es: seq<Event>, n: nat) returns (e: Event)
    requires workers >= 1 && Possible(Init(workers), es) && Game(Init(workers), es, n)
    requires !Deadlock.Stuck(After(Init(workers), es))
    ensures Possible(Init(workers), es + [e]) && Game(Init(workers), es + [e], n)
  {
    var s := After(Init(workers), es);
    if MainEnabled(s) {
      e := Main;
    } else if ChooseEnabled(s, Yield) {
      e := Choose(PlayerOp(n, s.manager.t, if s.manager.t < |s.logs| then s.logs[s.manager.t].ops else 0));
    } else if w :| 0 <= w < |s.workers| && ReadEnabled(s, w) {
      e := Read(w);
    } else if w :| 0 <= w < |s.workers| && WorkEnabled(s, w) {
      e := Work(w, Ret(0, 0), false);
    } else if t :| t in s.creating && BeginPushEnabled(s, t) {
      e := BeginPush(t);
    } else {
      e := BeginPost;
    }
    PingPongSafe(workers, es, n, e);
  }

  // ----- the length of a game -----

  lemma NoCallbacks(s: State, w: nat, t: Id, timer: bool, raw: Option<Ret>, n: nat)
    requires EachOk(s) && Setup(s, n)
    ensures !FireEnabled(s, w, t, timer, raw)
  {
    OpenEach(s);
    assert t in s.watch ==> WatchOk(s, t) && RecordOk(s, t);
  }

  lemma {:induction false} GameCounts(workers: nat, es: seq<Event>, n: nat)
    requires workers >= 1 && Possible(Init(workers), es) && Game(Init(workers), es, n)
    ensures var s := After(Init(workers), es);
      && Bounds.Count(es, Bounds.IsChoice) == Ops(s, 0) + Ops(s, 1)
      && Bounds.Count(es, Bounds.IsBegin) == Begun(s) && Bounds.Count(es, Bounds.IsUnready) == 0
    decreases |es|
  {
    if es != [] {
      var before, e := es[..|es| - 1], es[|es| - 1];
      GameCounts(workers, before, n);
      RunInv(workers, before);
      RunGame(workers, before, n);
      var s := After(Init(workers), before);
      StepMove(s, e, n);
      if e.Fire? { NoCallbacks(s, e.w, e.t, e.timer, e.fired, n); }
    }
  }

  /** No game of n rounds has more than 108 n + 151 steps, however the threads interleave. */
  lemma PingPongTerminates(workers: nat, es: seq<Event>, n: nat)
    requires workers >= 1 && Possible(Init(workers), es) && Game(Init(workers), es, n)
    ensures |es| <= 108 * n + 151
  {
    Bounds.RunsAreFinite(workers, es);
    GameCounts(workers, es, n);
    RunGame(workers, es, n);
  }
}
