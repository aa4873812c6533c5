/** States that a run within the discipline reaches from a given state. */
module Paths {
  import opened Actions
  import opened Scheduler
  import opened Invariant
  import opened Runs
  import opened Ownership

  predicate Leads(s: State, es: seq<Event>, s': State) { Possible(s, es) && After(s, es) == s' }

  datatype Fold = Folded

  ghost predicate SomeRun(s: State, s': State, f: Fold) { exists es :: Leads(s, es, s') }

  /** Some run leads from s to s'. Quantified so that it is unfolded only on demand. */
  ghost predicate Reaches(s: State, s': State) { forall f {:trigger SomeRun(s, s', f)} :: SomeRun(s, s', f) }

  lemma RunTo(s: State, s': State) returns (es: seq<Event>)
    requires Reaches(s, s')
    ensures Leads(s, es, s')
  {
    assert SomeRun(s, s', Folded);
    es :| Leads(s, es, s');
  }

  lemma Stay(s: State)
    ensures Reaches(s, s)
  {
    assert Leads(s, [], s);
  }

  lemma Go(s: State, s1: State, e: Event, s2: State)
    requires Reaches(s, s1) && Allowed(s1, e) && Step(s1, e) == s2
    ensures Reaches(s, s2)
  {
    var es := RunTo(s, s1);
    assert (es + [e])[..|es|] == es;
    assert Leads(s, es + [e], s2);
  }

  lemma GoMain(s: State, s1: State, s2: State)
    requires Reaches(s, s1) && MainEnabled(s1) && MainStep(s1) == s2
    ensures Reaches(s, s2)
  {
    Go(s, s1, Main, s2);
  }

  lemma GoChoose(s: State, s1: State, op: Op, s2: State)
    requires Reaches(s, s1) && ChooseEnabled(s1, op) && Disciplined(s1, op) && ChooseStep(s1, op) == s2
    ensures Reaches(s, s2)
  {
    Go(s, s1, Choose(op), s2);
  }

  ghost predicate Led(s: State, es: seq<Event>, s': State, f: Fold) { Leads(s, es, s') }

  /** Exactly these events lead from s to s'. Quantified for the same reason. */
  ghost predicate Takes(s: State, es: seq<Event>, s': State) { forall f {:trigger Led(s, es, s', f)} :: Led(s, es, s', f) }

  lemma TakeOne(s: State, e: Event, s': State)
    requires Allowed(s, e) && Step(s, e) == s'
    ensures Takes(s, [e], s')
  {
    assert Leads(s, [], s);
    TakeMore(s, [], s, e, s');
    assert [] + [e] == [e];
  }

  lemma TakeMore(s: State, es: seq<Event>, s1: State, e: Event, s2: State)
    requires Takes(s, es, s1) && Allowed(s1, e) && Step(s1, e) == s2
    ensures Takes(s, es + [e], s2)
  {
    assert Led(s, es, s1, Folded);
    assert (es + [e])[..|es|] == es;
  }

  /** The invariant of a state holds of all that follows it. */
  lemma {:induction false} KeptByRuns(s: State, es: seq<Event>)
    requires Inv(s) && Possible(s, es)
    ensures Inv(After(s, es))
    decreases |es|
  {
    if es != [] {
      var before := es[..|es| - 1];
      KeptByRuns(s, before);
      StepKeeps(After(s, before), es[|es| - 1]);
    }
  }

  lemma ReachesInv(s: State, s': State)
    requires Inv(s) && Reaches(s, s')
    ensures Inv(s')
  {
    var es := RunTo(s, s');
    KeptByRuns(s, es);
  }

  // ----- losing a coroutine -----

  /** The record of t is live, its coroutine has not returned plainly, and nothing holds it. */
  ghost predicate Dropped(s: State, t: Id) { t in s.tasks && !Lost(s, t) && forall h :: !Holds(s, h, t) }

  /** Whatever happens within the discipline, no coroutine is ever dropped. */
  ghost predicate SafeForEver(s: State) {
    forall es, t {:trigger Dropped(After(s, es), t)} :: Possible(s, es) ==> !Dropped(After(s, es), t)
  }

  lemma NobodyDropped(s: State, t: Id)
    requires Inv(s)
    ensures !Dropped(s, t)
  {
    if t in s.tasks && !Lost(s, t) {
      Open(s);
      assert RecordOk(s, t) && PlaceHolds(s, t);
      HoldsNamed(s, t);
    }
  }

  lemma InvIsSafe(s: State)
    requires Inv(s)
    ensures SafeForEver(s)
  {
    forall es, t | Possible(s, es) ensures !Dropped(After(s, es), t) {
      KeptByRuns(s, es);
      NobodyDropped(After(s, es), t);
    }
  }

  lemma DroppedIsUnsafe(s: State, s': State, t: Id)
    requires Reaches(s, s') && Dropped(s', t)
    ensures !SafeForEver(s)
  {
    var es := RunTo(s, s');
    assert Dropped(After(s, es), t);
  }
}
