/** Runs within the discipline after which one more post, or one more wait, does harm. */
module Misuse {
  import opened Actions
  import opened Scheduler
  import opened Invariant
  import opened Ownership
  import opened Runs
  import opened Semaphores
  import opened Paths
  import opened SecondWait

  function LogOf(ops: seq<Entry>): Log { Log(ops, |ops|, [], [], [], 0, false, 0) }

  function Record(a: Action, c: Context, p: Where): Task { Task(a, NoRequest, Ret(0, 0), c, p) }

  const InitTrace: seq<Entry> := [] + [Issued(SemInit(7, 0))]
  const Created := InitTrace + [Issued(Create)]
  const Yielded := Created + [Issued(Yield)]
  const PostedTrace := Yielded + [Issued(SemPost(7, false))]
  const WaitTrace: seq<Entry> := [] + [Issued(SemWait(7))]

  function Fresh(p: Where): Task { Record(NewCoroutine, NoContext, p) }

  function Yielding(c: Context, p: Where): Task { Record(SchedYield, c, p) }

  function Pair(k0: Task, k1: Task): map<Id, Task> { map[0 := k0, 1 := k1] }

  // ----- the scenes of the run -----

  /** Coroutine 0 alone. */
  function Solo(m: Manager, units: nat, todo: seq<Id>, p: Where): State {
    Init(1).(cid := 1, sem := units, todo := todo, manager := m, tasks := map[0 := Fresh(p)], logs := [EmptyLog])
  }

  /** Coroutine 0 has made semaphore 7 and coroutine 1. */
  function Made(): State {
    Init(1).(cid := 2, sem := 1, todo := [1], manager := Running(0, User), tasks := Pair(Fresh(AtManager), Fresh(InTodo)),
             sems := map[7 := Sem(0, None, 0, 0, 0)], logs := [LogOf(Created), EmptyLog])
  }

  /** Coroutine 0 is in crt_sched_yield and has published its record. */
  function Yields(): State {
    Made().(todo := [1, 0], manager := Running(0, YieldPost), tasks := Pair(Yielding(NoContext, InTodo), Fresh(InTodo)),
            logs := [LogOf(Yielded), EmptyLog])
  }

  /** Coroutine 0 has yielded. */
  function BothQueued(): State {
    Made().(sem := 2, todo := [1, 0], manager := Waiting, tasks := Pair(Yielding(Saved(User), InTodo), Fresh(InTodo)),
            logs := [LogOf(Yielded), EmptyLog])
  }

  /** Coroutine 1 runs. */
  function SecondRuns(): State {
    BothQueued().(sem := 1, todo := [0], curr := 1, manager := Running(1, User),
                  tasks := Pair(Yielding(Saved(User), InTodo), Fresh(AtManager)))
  }

  function Asleep(): Task { Record(NewCoroutine, Saved(SemTest(7)), AtSem(7)) }

  /** Coroutine 1 has parked in semaphore 7. */
  function SecondParked(): State {
    SecondRuns().(manager := Waiting, tasks := Pair(Yielding(Saved(User), InTodo), Asleep()),
                  sems := map[7 := Sem(0, Some(1), 0, 0, 0)], logs := [LogOf(Yielded), LogOf(WaitTrace)])
  }

  /** ... and coroutine 0 runs again. */
  function OneParked(): State {
    SecondParked().(sem := 0, todo := [], curr := 0, manager := Running(0, User),
                    tasks := Pair(Yielding(NoContext, AtManager), Asleep()))
  }

  /** ... and has posted once: the activation of coroutine 1 is pending. */
  function PostedOnce(): State {
    OneParked().(sem := 1, todo := [1], sems := map[7 := Sem(1, Some(1), 0, 1, 0)],
                 tasks := Pair(Yielding(NoContext, AtManager), Record(SemActivation, Saved(SemTest(7)), InTodo)),
                 logs := [LogOf(PostedTrace), LogOf(WaitTrace)])
  }

  ghost predicate Reached(s: State) { Reaches(Init(1), s) }

  // ----- the steps between the scenes -----

  lemma ReachNew()
    ensures Reached(Solo(Waiting, 1, [0], InTodo))
  {
    var s1 := Solo(Waiting, 0, [], Unborn(true)).(creating := {0});
    var s2 := Solo(Waiting, 0, [0], InTodo).(unposted := 1);
    Stay(Init(1));
    Go(Init(1), Init(1), Begin, s1);
    Go(Init(1), s1, BeginPush(0), s2);
    Go(Init(1), s2, BeginPost, Solo(Waiting, 1, [0], InTodo));
  }

  lemma ReachSolo()
    ensures Reached(Solo(Running(0, User), 0, [], AtManager))
  {
    ReachNew();
    GoMain(Init(1), Solo(Waiting, 1, [0], InTodo), Solo(Took, 0, [0], InTodo));
    GoMain(Init(1), Solo(Took, 0, [0], InTodo), Solo(Dispatch(0), 0, [], AtManager));
    GoMain(Init(1), Solo(Dispatch(0), 0, [], AtManager), Solo(Running(0, User), 0, [], AtManager));
  }

  lemma ReachMade()
    ensures Reached(Made())
  {
    ReachSolo();
    var s0 := Solo(Running(0, User), 0, [], AtManager);
    var s1 := s0.(sems := map[7 := Sem(0, None, 0, 0, 0)], logs := [LogOf(InitTrace)]);
    var s2 := Made().(sem := 0, todo := [], manager := Running(0, BornPush(1)),
                      tasks := Pair(Fresh(AtManager), Fresh(Unborn(false))));
    var s3 := Made().(sem := 0, manager := Running(0, BornPost));
    GoChoose(Init(1), s0, SemInit(7, 0), s1);
    GoChoose(Init(1), s1, Create, s2);
    GoMain(Init(1), s2, s3);
    GoMain(Init(1), s3, Made());
  }

  lemma ReachYielding()
    ensures Reached(Yields())
  {
    ReachMade();
    var s1 := Made().(manager := Running(0, YieldPush), tasks := Pair(Yielding(NoContext, AtManager), Fresh(InTodo)),
                      logs := [LogOf(Yielded), EmptyLog]);
    GoChoose(Init(1), Made(), Yield, s1);
    GoMain(Init(1), s1, Yields());
  }

  lemma ReachBothQueued()
    ensures Reached(BothQueued())
  {
    ReachYielding();
    var s1 := Yields().(sem := 2, manager := Running(0, Swap(User)));
    var s2 := BothQueued().(manager := Check(0));
    GoMain(Init(1), Yields(), s1);
    GoMain(Init(1), s1, s2);
    GoMain(Init(1), s2, BothQueued());
  }

  lemma ReachSecondRuns()
    ensures Reached(SecondRuns())
  {
    ReachBothQueued();
    var s1 := BothQueued().(sem := 1, manager := Took);
    var s2 := SecondRuns().(curr := 0, manager := Dispatch(1));
    GoMain(Init(1), BothQueued(), s1);
    GoMain(Init(1), s1, s2);
    GoMain(Init(1), s2, SecondRuns());
  }

  lemma ReachSecondParked()
    ensures Reached(SecondParked())
  {
    ReachSecondRuns();
    var s1 := SecondRuns().(manager := Running(1, SemTest(7)), logs := [LogOf(Yielded), LogOf(WaitTrace)]);
    var s2 := SecondParked().(manager := Running(1, Swap(SemTest(7))),
                              tasks := Pair(Yielding(Saved(User), InTodo), Fresh(AtSem(7))));
    var s3 := SecondParked().(manager := Check(1));
    GoChoose(Init(1), SecondRuns(), SemWait(7), s1);
    GoMain(Init(1), s1, s2);
    GoMain(Init(1), s2, s3);
    GoMain(Init(1), s3, SecondParked());
  }

  lemma ReachOneParked()
    ensures Reached(OneParked())
  {
    ReachSecondParked();
    var s1 := SecondParked().(sem := 0, manager := Took);
    var s2 := s1.(todo := [], manager := Dispatch(0), tasks := Pair(Yielding(Saved(User), AtManager), Asleep()));
    GoMain(Init(1), SecondParked(), s1);
    GoMain(Init(1), s1, s2);
    GoMain(Init(1), s2, OneParked());
  }

  lemma ReachPostedOnce()
    ensures Reached(PostedOnce())
  {
    ReachOneParked();
    var s1 := PostedOnce().(sem := 0, todo := [], manager := Running(0, WakePush(7, false)),
                            tasks := Pair(Yielding(NoContext, AtManager), Asleep().(action := SemActivation)));
    var s2 := PostedOnce().(sem := 0, manager := Running(0, WakePost));
    GoChoose(Init(1), OneParked(), SemPost(7, false), s1);
    GoMain(Init(1), s1, s2);
    GoMain(Init(1), s2, PostedOnce());
  }

  /** A run within the discipline leads here, and a second post in a row queues coroutine 1 twice. */
  lemma SecondPostQueuesTwice()
    ensures Reached(PostedOnce())
    ensures ChooseEnabled(PostedOnce(), SemPost(7, false)) && Posted(PostedOnce(), 7, false).todo == [1, 1]
  {
    ReachPostedOnce();
  }

  /** A run within the discipline leads here, and when coroutine 0 waits too, coroutine 1 is dropped at once. */
  lemma SecondWaitLosesFirst()
    ensures Reached(OneParked()) && ChooseEnabled(OneParked(), SemWait(7)) && OneParked().sems[7].value == 0
    ensures Dropped(WaitedToo(OneParked(), 7), 1)
  {
    ReachOneParked();
    InitInv(1);
    ReachesInv(Init(1), OneParked());
    LosesAtOnce(OneParked(), 7, 1);
  }

  // ----- the value is positive: the loss comes later -----

  const WaitedTrace := PostedTrace + [Issued(SemWait(7))]
  const WaitedTwice := WaitedTrace + [Issued(SemWait(7))]

  /** Coroutine 0 has taken the unit that was posted for coroutine 1. */
  function UnitTaken(): State {
    PostedOnce().(sems := map[7 := Sem(0, None, 0, 1, 1)], logs := [LogOf(WaitedTrace), LogOf(WaitTrace)])
  }

  /** It is parked. */
  function FirstParked(): State {
    UnitTaken().(manager := Waiting, sems := map[7 := Sem(0, Some(0), 0, 1, 1)],
                 tasks := Pair(Yielding(Saved(SemTest(7)), AtSem(7)), Record(SemActivation, Saved(SemTest(7)), InTodo)),
                 logs := [LogOf(WaitedTwice), LogOf(WaitTrace)])
  }

  /** Coroutine 1 has been resumed, found no unit, and overwritten it. */
  function FirstDropped(): State {
    FirstParked().(sem := 0, todo := [], curr := 1, manager := Running(1, Swap(SemTest(7))),
                   sems := map[7 := Sem(0, Some(1), 0, 1, 1)],
                   tasks := Pair(Yielding(Saved(SemTest(7)), AtSem(7)), Record(SemActivation, NoContext, AtSem(7))))
  }

  lemma TakesUnit()
    ensures WaitedToo(PostedOnce(), 7) == UnitTaken()
  {
    assert ChooseStep(PostedOnce(), SemWait(7))
        == PostedOnce().(manager := Running(0, SemTest(7)), logs := [LogOf(WaitedTrace), LogOf(WaitTrace)]);
  }

  /** It waits again, finds no unit, and is about to swap out. */
  function SwapsAtTest(): State {
    FirstParked().(manager := Running(0, Swap(SemTest(7))),
                   tasks := Pair(Yielding(NoContext, AtSem(7)), Record(SemActivation, Saved(SemTest(7)), InTodo)))
  }

  lemma TestsAgain()
    ensures Reaches(UnitTaken(), SwapsAtTest())
  {
    var from := UnitTaken();
    var s1 := from.(manager := Running(0, SemTest(7)), logs := [LogOf(WaitedTwice), LogOf(WaitTrace)]);
    Stay(from);
    GoChoose(from, from, SemWait(7), s1);
    GoMain(from, s1, SwapsAtTest());
  }

  lemma Parks()
    ensures Reaches(UnitTaken(), FirstParked())
  {
    var from := UnitTaken();
    var s3 := FirstParked().(manager := Check(0));
    TestsAgain();
    GoMain(from, SwapsAtTest(), s3);
    GoMain(from, s3, FirstParked());
  }

  lemma Drops()
    ensures Reaches(UnitTaken(), FirstDropped())
  {
    var from := UnitTaken();
    Parks();
    var s1 := FirstParked().(sem := 0, manager := Took);
    var s2 := s1.(todo := [], manager := Dispatch(1),
                  tasks := Pair(Yielding(Saved(SemTest(7)), AtSem(7)), Record(SemActivation, Saved(SemTest(7)), AtManager)));
    var s3 := s2.(curr := 1, manager := Running(1, SemTest(7)),
                  tasks := Pair(Yielding(Saved(SemTest(7)), AtSem(7)), Record(SemActivation, NoContext, AtManager)));
    GoMain(from, FirstParked(), s1);
    GoMain(from, s1, s2);
    GoMain(from, s2, s3);
    GoMain(from, s3, FirstDropped());
  }

  /**
   A run within the discipline leads to a state with value 1 and a waiter; coroutine 0 waits; and a
   run within the discipline from there drops it.
  */
  lemma SecondWaitLosesLater()
    ensures Reached(PostedOnce()) && ChooseEnabled(PostedOnce(), SemWait(7)) && PostedOnce().sems[7].value == 1
    ensures Reaches(WaitedToo(PostedOnce(), 7), FirstDropped()) && Dropped(FirstDropped(), 0)
  {
    ReachPostedOnce();
    TakesUnit();
    Drops();
  }
}
