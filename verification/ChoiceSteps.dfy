/** Every operation a coroutine may choose, within the discipline, keeps the invariant. */
module ChoiceSteps {
  import opened Actions
  import opened Scheduler
  import opened Seqs
  import opened Invariant
  import opened Frames
  import opened ManagerSteps
  import opened BirthSteps

  predicate Choosing(s: State, t: Id) {
    && s.manager == Running(t, User) && s.curr == t && TouchedOk(s, t) && s.tasks[t].place.AtManager?
  }

  lemma ChoosingNow(s: State, t: Id)
    requires Inv(s) && s.manager == Running(t, User)
    ensures Choosing(s, t)
  {
    Open(s);
    assert TouchedOk(s, t);
  }

  /** The operation is recorded in the coroutine's trace, and nothing else. */
  function Noted(s: State, t: Id, op: Op): State
    requires t < |s.logs|
  {
    s.(logs := s.logs[t := s.logs[t].(trace := s.logs[t].trace + [Issued(op)], ops := s.logs[t].ops + 1)])
  }

  lemma NotedEach(s: State, t: Id, op: Op)
    requires EachOk(s) && Choosing(s, t) && !op.Exit? && !op.Return?
    ensures EachOk(Noted(s, t, op)) && Choosing(Noted(s, t, op), t)
  {
    OpenEach(s);
    NotWaiting(s, t);
    LocalStep(s, Noted(s, t, op), t);
  }

  // ----- numbers -----

  /** No operation but crt_create changes what the tallies speak of. */
  lemma ChooseTallies(s: State, op: Op)
    requires Tallies(s) && ChooseEnabled(s, op) && Live(s, s.curr) && !op.Create?
    requires op.SemPost? ==> op.k in s.sems && (s.sems[op.k].waiter.Some? ==> Live(s, s.sems[op.k].waiter.value))
    ensures Tallies(ChooseStep(s, op))
  {
  }

  lemma CreateTallies(s: State)
    requires Tallies(s) && ChooseEnabled(s, Create) && Live(s, s.curr) && |s.logs| !in s.tasks
    ensures Tallies(ChooseStep(s, Create))
  {
    CountBorn(s.cid, s.ran, |s.tasks|);
  }

  // ----- operations on the coroutine's own record -----

  predicate OwnOp(op: Op) { op.Call? || op.Yield? || op.Exit? || op.Return? }

  lemma OwnKept(s: State, t: Id, op: Op)
    requires Choosing(s, t) && OwnOp(op) && ChooseEnabled(s, op)
    ensures TouchedOk(ChooseStep(s, op), t)
  {
  }

  lemma OwnTouched(s: State, t: Id, op: Op)
    requires Choosing(s, t) && OwnOp(op) && ChooseEnabled(s, op)
    ensures TouchedOk(ChooseStep(s, op), t) && Only(s, ChooseStep(s, op), {t})
    ensures var s' := ChooseStep(s, op); SameHolders(s, s') && s'.sems == s.sems && NoErrand(s'.manager)
    ensures var p := ChooseStep(s, op).tasks[t].place; !p.Unborn? && !p.AtSem?
  {
    OwnKept(s, t, op);
  }

  lemma OwnEach(s: State, t: Id, op: Op)
    requires Inv(s) && s.manager == Running(t, User) && OwnOp(op) && ChooseEnabled(s, op)
    ensures EachOk(ChooseStep(s, op))
  {
    Open(s);
    ChoosingNow(s, t);
    OwnTouched(s, t, op);
    NotWaiting(s, t);
    LocalStep(s, ChooseStep(s, op), t);
  }

  lemma OwnManager(s: State, t: Id, op: Op)
    requires Choosing(s, t) && OwnOp(op) && ChooseEnabled(s, op)
    ensures ManagerOk(ChooseStep(s, op))
  {
  }

  lemma OwnCore(s: State, t: Id, op: Op)
    requires Inv(s) && s.manager == Running(t, User) && OwnOp(op) && ChooseEnabled(s, op)
    ensures CoreOk(ChooseStep(s, op))
  {
    ChoosingNow(s, t);
    OwnManager(s, t, op);
    BothQueues(s);
    QueuesAside(s, ChooseStep(s, op), t);
    AllTallies(s);
    ChooseTallies(s, op);
    CloseCore(ChooseStep(s, op));
  }

  // ----- semaphores -----

  /** A semaphore nobody waits for may be set up or counted up. */
  lemma UnwaitedTouch(s: State, t: Id, n: SemId, m: Sem)
    requires SemsOk(s) && Choosing(s, t) && (n in s.sems ==> s.sems[n].waiter.None?)
    requires m.waiter.None? && m.value >= 0 && m.value + m.waits == m.init + m.posts
    ensures Touch(s, s.(sems := s.sems[n := m]), {t}, {n})
  {
    NotWaiting(s, t);
  }

  lemma InitEach(s: State, t: Id, n: SemId, v: nat)
    requires Inv(s) && s.manager == Running(t, User) && n !in s.sems
    ensures EachOk(ChooseStep(s, SemInit(n, v)))
  {
    ChoosingNow(s, t);
    var s', s1 := ChooseStep(s, SemInit(n, v)), Noted(s, t, SemInit(n, v));
    NotedEach(s, t, SemInit(n, v));
    assert s' == s1.(sems := s1.sems[n := Sem(v, None, v, 0, 0)]);
    OpenEach(s1);
    UnwaitedTouch(s1, t, n, s'.sems[n]);
    TouchStep(s1, s', {t}, {n});
  }

  lemma InitCore(s: State, t: Id, n: SemId, v: nat)
    requires Inv(s) && s.manager == Running(t, User) && n !in s.sems
    ensures CoreOk(ChooseStep(s, SemInit(n, v)))
  {
    OpenCore(s);
    ChoosingNow(s, t);
    CloseCore(ChooseStep(s, SemInit(n, v)));
  }

  lemma WaitEach(s: State, t: Id, n: SemId)
    requires Inv(s) && s.manager == Running(t, User) && n in s.sems && s.sems[n].waiter.None?
    ensures EachOk(ChooseStep(s, SemWait(n)))
  {
    AllSems(s);
    ChoosingNow(s, t);
    NotWaiting(s, t);
    LocalStep(s, ChooseStep(s, SemWait(n)), t);
  }

  lemma WaitCore(s: State, t: Id, n: SemId)
    requires Inv(s) && s.manager == Running(t, User) && n in s.sems && s.sems[n].waiter.None?
    ensures CoreOk(ChooseStep(s, SemWait(n)))
  {
    OpenCore(s);
    ChoosingNow(s, t);
    CloseCore(ChooseStep(s, SemWait(n)));
  }

  /** A post that finds no waiter only counts. */
  lemma PostFreeEach(s: State, t: Id, n: SemId, front: bool)
    requires Inv(s) && s.manager == Running(t, User) && n in s.sems && s.sems[n].waiter.None?
    ensures EachOk(ChooseStep(s, SemPost(n, front)))
  {
    Open(s);
    ChoosingNow(s, t);
    var op := SemPost(n, front);
    var s', s1 := ChooseStep(s, op), Noted(s, t, op);
    NotedEach(s, t, op);
    assert s' == s1.(sems := s1.sems[n := s'.sems[n]]);
    OpenEach(s1);
    assert SemOk(s1, n);
    UnwaitedTouch(s1, t, n, s'.sems[n]);
    TouchStep(s1, s', {t}, {n});
  }

  lemma PostFreeCore(s: State, t: Id, n: SemId, front: bool)
    requires Inv(s) && s.manager == Running(t, User) && n in s.sems && s.sems[n].waiter.None?
    ensures CoreOk(ChooseStep(s, SemPost(n, front)))
  {
    OpenCore(s);
    ChoosingNow(s, t);
    CloseCore(ChooseStep(s, SemPost(n, front)));
  }

  /** A post that finds a parked waiter marks it for activation. */
  lemma PostWakeTouched(s: State, t: Id, n: SemId, front: bool, u: Id)
    requires Choosing(s, t) && n in s.sems && s.sems[n].waiter == Some(u) && s.sems[n].value == 0
    requires SemOk(s, n) && TouchedOk(s, u)
    ensures s.tasks[u].place == AtSem(n)
    ensures var s' := ChooseStep(s, SemPost(n, front));
            TouchedOk(s', t) && TouchedOk(s', u) && SemOk(s', n)
            && s' == Noted(s, t, SemPost(n, front)).(sems := s.sems[n := s'.sems[n]],
                  tasks := s.tasks[u := s.tasks[u].(action := SemActivation)], manager := Running(t, WakePush(n, front)))
            && s'.sems[n].waiter == Some(u)
  {
  }

  lemma PostWakeHolders(s: State, s': State, t: Id, n: SemId, front: bool, u: Id)
    requires SemsOk(s) && Choosing(s, t) && n in s.sems && n in s'.sems && Live(s, u) && s.tasks[u].place == AtSem(n)
    requires s' == Noted(s, t, SemPost(n, front)).(sems := s.sems[n := s'.sems[n]],
                  tasks := s.tasks[u := s.tasks[u].(action := SemActivation)], manager := Running(t, WakePush(n, front)))
    requires s.sems[n].waiter == Some(u) && TouchedOk(s', t) && TouchedOk(s', u) && SemOk(s', n)
    ensures Only(s, s', {t, u}) && SameHolders(s, s') && HoldersKept(s, s', {t, u})
  {
  }

  lemma PostWakeTouch(s: State, s': State, t: Id, n: SemId, front: bool, u: Id)
    requires SemsOk(s) && Choosing(s, t) && n in s.sems && n in s'.sems && Live(s, u) && s.tasks[u].place == AtSem(n)
    requires s' == Noted(s, t, SemPost(n, front)).(sems := s.sems[n := s'.sems[n]],
                  tasks := s.tasks[u := s.tasks[u].(action := SemActivation)], manager := Running(t, WakePush(n, front)))
    requires s.sems[n].waiter == Some(u) && TouchedOk(s', t) && TouchedOk(s', u) && SemOk(s', n)
    ensures Touch(s, s', {t, u}, {n})
  {
    PostWakeHolders(s, s', t, n, front, u);
    NotWaiting(s, t);
    WaitsOnce(s, u, n);
  }

  lemma PostWakeEach(s: State, t: Id, n: SemId, front: bool, u: Id)
    requires Inv(s) && s.manager == Running(t, User) && n in s.sems
    requires s.sems[n].waiter == Some(u) && s.sems[n].value == 0
    ensures EachOk(ChooseStep(s, SemPost(n, front)))
  {
    Open(s);
    ChoosingNow(s, t);
    var s' := ChooseStep(s, SemPost(n, front));
    assert SemOk(s, n) && TouchedOk(s, u);
    PostWakeTouched(s, t, n, front, u);
    PostWakeTouch(s, s', t, n, front, u);
    TouchStep(s, s', {t, u}, {n});
  }

  lemma PostWakeManager(s: State, t: Id, n: SemId, front: bool, u: Id)
    requires Choosing(s, t) && n in s.sems && s.sems[n].waiter == Some(u) && s.sems[n].value == 0
    requires SemOk(s, n) && TouchedOk(s, u)
    ensures ManagerOk(ChooseStep(s, SemPost(n, front)))
  {
    PostWakeTouched(s, t, n, front, u);
  }

  lemma PostWakeCore(s: State, t: Id, n: SemId, front: bool, u: Id)
    requires Inv(s) && s.manager == Running(t, User) && n in s.sems
    requires s.sems[n].waiter == Some(u) && s.sems[n].value == 0
    ensures CoreOk(ChooseStep(s, SemPost(n, front)))
  {
    var op := SemPost(n, front);
    ChoosingNow(s, t);
    OneSem(s, n);
    Holding(s, u);
    PostWakeManager(s, t, n, front, u);
    BothQueues(s);
    QueuesAside(s, ChooseStep(s, op), u);
    AllTallies(s);
    ChooseTallies(s, op);
    CloseCore(ChooseStep(s, op));
  }

  // ----- crt_create -----

  lemma CreateEach(s: State, t: Id)
    requires Inv(s) && s.manager == Running(t, User)
    ensures EachOk(ChooseStep(s, Create))
  {
    ChoosingNow(s, t);
    FreshNumber(s);
    NotedEach(s, t, Create);
    BornStep(Noted(s, t, Create), ChooseStep(s, Create), false);
  }

  lemma CreateManager(s: State, t: Id)
    requires Choosing(s, t) && |s.logs| !in s.tasks
    ensures ManagerOk(ChooseStep(s, Create))
  {
  }

  lemma CreateCore(s: State, t: Id)
    requires Inv(s) && s.manager == Running(t, User)
    ensures CoreOk(ChooseStep(s, Create))
  {
    var s' := ChooseStep(s, Create);
    FreshNumber(s);
    ChoosingNow(s, t);
    CreateManager(s, t);
    BothQueues(s);
    QueuesAside(s, s', |s.logs|);
    AllTallies(s);
    CreateTallies(s);
    CloseCore(s');
  }
}
