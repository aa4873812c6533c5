/** Coroutines that run finite scripts within the discipline: the runtime goes on until all are at rest. */
module Scripts {
  import opened Actions
  import opened Scheduler
  import opened Invariant
  import opened Runs
  import opened DirectCalls
  import opened Deadlock
  import Bounds

  /** The steps of the runtime and of its coroutines; the others wait for main or for the kernel. */
  predicate Internal(e: Event) { !e.Begin? && !e.Fire? }

  /** If a coroutine is to choose, what its script says next is within the discipline. */
  ghost predicate NextFits(s: State, prog: Id -> Program) {
    s.manager.Running? && s.manager.at == User && s.manager.t < |s.logs| ==>
      var op := prog(s.manager.t)(s.logs[s.manager.t].trace);
      Disciplined(s, op) && (op.Call? ==> IsRequest(op.req.action))
  }

  ghost predicate WithinDiscipline(workers: nat, prog: Id -> Program) {
    forall es {:trigger Follows(Init(workers), es, prog)} ::
      Possible(Init(workers), es) && Follows(Init(workers), es, prog) ==> NextFits(After(Init(workers), es), prog)
  }

  /** With so many coroutines created by main, the scripts make at most `most` choices in all. */
  ghost predicate Finite(workers: nat, prog: Id -> Program, begins: nat, most: nat) {
    forall es {:trigger Follows(Init(workers), es, prog)} ::
      Possible(Init(workers), es) && Follows(Init(workers), es, prog) && Bounds.Count(es, Bounds.IsBegin) == begins
      ==> Bounds.Count(es, Bounds.IsChoice) <= most
  }

  /** What the next internal event may be. */
  ghost predicate NextEvent(s: State, e: Event, prog: Id -> Program) {
    Internal(e) && Allowed(s, e) && Obeys(s, e, prog)
  }

  /** A state that is not stuck has a next step. */
  lemma StepThere(s: State, prog: Id -> Program) returns (e: Event)
    requires Inv(s) && NextFits(s, prog) && !Stuck(s)
    ensures NextEvent(s, e, prog)
  {
    if MainEnabled(s) {
      e := Main;
    } else if ChooseEnabled(s, Yield) {
      OneManager(s);
      e := Choose(prog(s.manager.t)(s.logs[s.manager.t].trace));
    } else if w :| 0 <= w < |s.workers| && ReadEnabled(s, w) {
      e := Read(w);
    } else if w :| 0 <= w < |s.workers| && WorkEnabled(s, w) {
      e := Work(w, Ret(0, 0), false);
    } else if t :| t in s.creating && BeginPushEnabled(s, t) {
      e := BeginPush(t);
    } else {
      e := BeginPost;
    }
  }

  /** A run of the scripts, one event longer. */
  lemma Longer(workers: nat, es: seq<Event>, prog: Id -> Program, e: Event)
    requires Possible(Init(workers), es) && Follows(Init(workers), es, prog)
    requires NextEvent(After(Init(workers), es), e, prog)
    ensures Possible(Init(workers), es + [e]) && Follows(Init(workers), es + [e], prog)
    ensures Bounds.Count(es + [e], Bounds.IsBegin) == Bounds.Count(es, Bounds.IsBegin)
    ensures Bounds.Count(es + [e], Bounds.IsUnready) == Bounds.Count(es, Bounds.IsUnready)
  {
    assert (es + [e])[..|es|] == es;
  }

  /** A run that is not stuck goes on. */
  lemma ScriptsGoOn(workers: nat, es: seq<Event>, prog: Id -> Program) returns (e: Event)
    requires workers >= 1 && Possible(Init(workers), es) && Follows(Init(workers), es, prog)
    requires WithinDiscipline(workers, prog) && !Stuck(After(Init(workers), es))
    ensures Internal(e) && Possible(Init(workers), es + [e]) && Follows(Init(workers), es + [e], prog)
  {
    RunInv(workers, es);
    e := StepThere(After(Init(workers), es), prog);
    Longer(workers, es, prog, e);
  }

  /** A run that no internal event extends has everybody at rest. */
  lemma MaximalRunsRest(workers: nat, es: seq<Event>, prog: Id -> Program)
    requires workers >= 1 && Possible(Init(workers), es) && Follows(Init(workers), es, prog)
    requires WithinDiscipline(workers, prog)
    requires forall e {:trigger Internal(e)} :: Internal(e) ==>
               !(Possible(Init(workers), es + [e]) && Follows(Init(workers), es + [e], prog))
    ensures AllRest(After(Init(workers), es))
  {
    if !Stuck(After(Init(workers), es)) {
      var e := ScriptsGoOn(workers, es, prog);
    }
    StuckMeansWaiting(workers, es);
  }

  function Room(workers: nat, es: seq<Event>, most: nat): int {
    Bounds.PER_CHOICE * most + Bounds.PER_BEGIN * Bounds.Count(es, Bounds.IsBegin) + Bounds.Count(es, Bounds.IsUnready) - |es|
  }

  lemma RoomLeft(workers: nat, es: seq<Event>, prog: Id -> Program, most: nat)
    requires workers >= 1 && Possible(Init(workers), es) && Follows(Init(workers), es, prog)
    requires Finite(workers, prog, Bounds.Count(es, Bounds.IsBegin), most)
    ensures Room(workers, es, most) >= 0
  {
    Bounds.RunsAreFinite(workers, es);
  }

  /** es' goes on from es with internal events only. */
  predicate GoesOnFrom(es: seq<Event>, es': seq<Event>) {
    es <= es' && forall i :: |es| <= i < |es'| ==> Internal(es'[i])
  }

  lemma OneFurther(es: seq<Event>, e: Event, es': seq<Event>)
    requires Internal(e) && GoesOnFrom(es + [e], es')
    ensures GoesOnFrom(es, es')
  {
    assert es'[|es|] == (es + [e])[|es|];
  }

  /** One step, and less room. */
  lemma Narrower(workers: nat, es: seq<Event>, prog: Id -> Program, most: nat) returns (es': seq<Event>)
    requires workers >= 1 && Possible(Init(workers), es) && Follows(Init(workers), es, prog)
    requires WithinDiscipline(workers, prog) && Finite(workers, prog, Bounds.Count(es, Bounds.IsBegin), most)
    requires !Stuck(After(Init(workers), es))
    ensures Possible(Init(workers), es') && Follows(Init(workers), es', prog)
    ensures Bounds.Count(es', Bounds.IsBegin) == Bounds.Count(es, Bounds.IsBegin)
    ensures 0 <= Room(workers, es', most) < Room(workers, es, most)
    ensures |es'| == |es| + 1 && Internal(es'[|es|]) && es' == es + [es'[|es|]]
  {
    RunInv(workers, es);
    var e := StepThere(After(Init(workers), es), prog);
    Longer(workers, es, prog, e);
    es' := es + [e];
    RoomLeft(workers, es', prog, most);
  }

  /**
   Whatever has happened so far, finite scripts within the discipline come to rest without any
   further event of main or of the kernel: every run extends to one that is at rest.
  */
  lemma {:induction false} RunsToRest(workers: nat, es: seq<Event>, prog: Id -> Program, most: nat) returns (es': seq<Event>)
    requires workers >= 1 && Possible(Init(workers), es) && Follows(Init(workers), es, prog)
    requires WithinDiscipline(workers, prog) && Finite(workers, prog, Bounds.Count(es, Bounds.IsBegin), most)
    ensures GoesOnFrom(es, es') && Possible(Init(workers), es') && Follows(Init(workers), es', prog)
    ensures AllRest(After(Init(workers), es'))
    decreases Room(workers, es, most)
  {
    if Stuck(After(Init(workers), es)) {
      StuckMeansWaiting(workers, es);
      es' := es;
    } else {
      var next := Narrower(workers, es, prog, most);
      es' := RunsToRest(workers, next, prog, most);
      OneFurther(es, next[|es|], es');
    }
  }
}
