/** Wake-up tokens match queue lengths, and coroutine ids match the coroutines there are. */
module Counting {
  import opened Actions
  import opened Scheduler
  import opened Seqs
  import opened Invariant
  import opened Runs

  /** The lengths of the queues, and what a consumer with a unit or a token finds. */
  predicate Announced(s: State) {
    && |s.todo| == s.sem + Taking(s) + Unannounced(s)
    && |s.doing| == Sum(s.pipes) + Reading(s) + Writing(s)
    && (s.manager.Took? ==> s.todo != [])
    && (forall w {:trigger s.workers[w]} :: 0 <= w < |s.workers| && s.workers[w].Token? ==> s.doing != [])
  }

  /** For any state of the invariant. */
  lemma TokensCounted(s: State)
    requires Inv(s)
    ensures Announced(s)
  {
    Open(s);
    AllTallies(s);
    forall w | 0 <= w < |s.workers| && s.workers[w].Token? ensures s.doing != [] {
      SumAtLeast(Map(TokenCount, s.workers), w);
    }
  }

  /**
   Each queue is as long as the units and tokens announced for it, plus the consumers that have
   taken theirs but not yet shifted, plus the producers that have pushed but not yet announced.
   Hence a consumer that has taken a unit or a token finds its queue non-empty.
   */
  lemma TokensMatch(workers: nat, es: seq<Event>)
    requires workers >= 1 && Possible(Init(workers), es)
    ensures Announced(After(Init(workers), es))
  {
    RunInv(workers, es);
    TokensCounted(After(Init(workers), es));
  }

  /** The records that are somebody's to run: everything allocated but what is still being created. */
  function Started(s: State): set<Id> {
    set t | t in s.tasks && t !in s.creating && !RunsAt(s.manager, BornPush(t))
  }

  function OwnBirth(s: State): nat { if s.manager.Running? && s.manager.at.BornPush? then 1 else 0 }

  lemma Census(s: State)
    requires CreatingOk(s) && ManagerOk(s)
    ensures |s.tasks| == |Started(s)| + |s.creating| + OwnBirth(s)
  {
    var own: set<Id> := if s.manager.Running? && s.manager.at.BornPush? then {s.manager.at.child} else {};
    Parted(Started(s), s.creating, own);
    AllCounted(s, own);
  }

  lemma AllCounted(s: State, own: set<Id>)
    requires CreatingOk(s) && ManagerOk(s)
    requires own == if s.manager.Running? && s.manager.at.BornPush? then {s.manager.at.child} else {}
    ensures |s.tasks| == |Started(s) + s.creating + own|
  {
    assert s.tasks.Keys == Started(s) + s.creating + own;
    assert |s.tasks| == |s.tasks.Keys|;
  }

  lemma Parted(a: set<Id>, b: set<Id>, c: set<Id>)
    requires a !! b && a + b !! c
    ensures |a + b + c| == |a| + |b| + |c|
  {
  }

  /** The id counter counts the freed, the started, and those between the increment and the Push. */
  predicate IdsAgree(s: State) {
    s.cid == (s.ran + |Started(s)| + |s.creating| + OwnBirth(s)) % TWO_TO_THE_64
  }

  lemma IdSum(s: State)
    requires CountsOk(s) && CreatingOk(s) && ManagerOk(s)
    ensures IdsAgree(s)
  {
    Census(s);
    assert s.ran + |Started(s)| + |s.creating| + OwnBirth(s) == s.ran + |s.tasks|;
  }

  lemma InvIds(s: State)
    requires Inv(s)
    ensures IdsAgree(s)
  {
    Open(s);
    IdSum(s);
  }

  lemma IdsMatch(workers: nat, es: seq<Event>)
    requires workers >= 1 && Possible(Init(workers), es)
    ensures IdsAgree(After(Init(workers), es))
  {
    RunInv(workers, es);
    Open(After(Init(workers), es));
    InvIds(After(Init(workers), es));
  }
}
