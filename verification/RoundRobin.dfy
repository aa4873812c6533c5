/** How evenly coroutine_notify_background_worker spreads its tokens over the pipes. */
module RoundRobin {
  import opened Actions
  import opened Scheduler
  import opened Invariant
  import opened Runs

  predicate WritesToken(s: State, e: Event) { e.Main? && RunsAt(s.manager, ReqWrite) }

  /** The notifications of a run. */
  function Notifications(workers: nat, es: seq<Event>): nat
    requires Possible(Init(workers), es)
    decreases |es|
  {
    if es == [] then 0 else
    var before := es[..|es| - 1];
    Notifications(workers, before) + (if WritesToken(After(Init(workers), before), es[|es| - 1]) then 1 else 0)
  }

  /** The tokens worker w has read from its pipe. */
  function TokensRead(es: seq<Event>, w: nat): nat {
    if es == [] then 0 else TokensRead(es[..|es| - 1], w) + (if es[|es| - 1] == Read(w) then 1 else 0)
  }

  /** The tokens pipe w has been given: those it still holds and those its worker has read. */
  function Given(workers: nat, es: seq<Event>, w: nat): nat
    requires Possible(Init(workers), es) && w < |After(Init(workers), es).pipes|
  {
    After(Init(workers), es).pipes[w] + TokensRead(es, w)
  }

  /** The part of n turns that falls to w when `workers` take turns, 0 first. */
  function Share(n: nat, workers: nat, w: nat): nat
    requires w < workers
  {
    n / workers + (if w < n % workers then 1 else 0)
  }

  lemma AtLeastOnce(k: int, d: nat)
    requires k >= 1
    ensures k * d >= d
  {
    assert k * d == (k - 1) * d + d;
  }

  lemma DivMod(n: nat, d: nat, q: nat, r: nat)
    requires d > 0 && n == q * d + r && r < d
    ensures n / d == q && n % d == r
  {
    var k, m := n / d, n % d;
    assert n == k * d + m;
    assert (k - q) * d == r - m;
    if k > q { AtLeastOnce(k - q, d); }
    if k < q { assert (q - k) * d == m - r; AtLeastOnce(q - k, d); }
  }

  lemma ShareNext(n: nat, workers: nat, w: nat)
    requires w < workers
    ensures Share(n + 1, workers, w) == Share(n, workers, w) + (if n % workers == w then 1 else 0)
  {
    var q, r := n / workers, n % workers;
    if r + 1 < workers {
      DivMod(n + 1, workers, q, r + 1);
    } else {
      assert n + 1 == (q + 1) * workers;
      DivMod(n + 1, workers, q + 1, 0);
    }
  }

  /** With a counter that wraps at m: whole rounds of the counter, then the current one. */
  function WrappedShare(n: nat, m: nat, workers: nat, w: nat): int
    requires w < workers && m > 0
  {
    (n / m) * Share(m, workers, w) + Share(n % m, workers, w)
  }

  /** A counter that wraps at m, after n increments. */
  function Counter(n: nat, m: nat): nat
    requires m > 0
  {
    if n == 0 then 0 else (Counter(n - 1, m) + 1) % m
  }

  lemma {:induction false} CounterIsMod(n: nat, m: nat)
    requires m > 0
    ensures Counter(n, m) == n % m
  {
    if n == 0 {
      WrappedStart(m, 1, 0);
    } else {
      CounterIsMod(n - 1, m);
      WrappedNext(n - 1, m, 1, 0);
    }
  }

  /** The turns that fall to w of n in a row, when such a counter says whose turn it is. */
  function Turns(n: nat, m: nat, workers: nat, w: nat): nat
    requires w < workers && m > 0
  {
    if n == 0 then 0 else Turns(n - 1, m, workers, w) + (if Counter(n - 1, m) % workers == w then 1 else 0)
  }

  lemma {:induction false} TurnsAreShares(n: nat, m: nat, workers: nat, w: nat)
    requires w < workers && m > 0
    ensures Turns(n, m, workers, w) == WrappedShare(n, m, workers, w)
  {
    if n == 0 {
      WrappedStart(m, workers, w);
    } else {
      TurnsAreShares(n - 1, m, workers, w);
      CounterIsMod(n - 1, m);
      WrappedNext(n - 1, m, workers, w);
    }
  }

  /** The next number, split at m. */
  lemma NextSplits(n: nat, m: nat)
    requires m > 0
    ensures (n + 1) % m == (n % m + 1) % m
    ensures if n % m + 1 < m then (n + 1) / m == n / m && (n + 1) % m == n % m + 1
            else (n + 1) / m == n / m + 1 && (n + 1) % m == 0 && n % m + 1 == m
  {
    var q, r := n / m, n % m;
    assert n == q * m + r;
    if r + 1 < m {
      DivMod(n + 1, m, q, r + 1);
      DivMod(r + 1, m, 0, r + 1);
    } else {
      assert n + 1 == (q + 1) * m;
      DivMod(n + 1, m, q + 1, 0);
      DivMod(r + 1, m, 1, 0);
    }
  }

  lemma WrappedNext(n: nat, m: nat, workers: nat, w: nat)
    requires w < workers && m > 0
    ensures WrappedShare(n + 1, m, workers, w)
         == WrappedShare(n, m, workers, w) + (if (n % m) % workers == w then 1 else 0)
    ensures (n + 1) % m == (n % m + 1) % m
  {
    NextSplits(n, m);
    ShareNext(n % m, workers, w);
    ShareNone(workers, w);
    if n % m + 1 == m { Distribute(n / m, Share(m, workers, w)); }
  }

  lemma Distribute(q: nat, x: nat)
    ensures (q + 1) * x == q * x + x
  {
  }

  lemma ShareNone(workers: nat, w: nat)
    requires w < workers
    ensures Share(0, workers, w) == 0
  {
    DivMod(0, workers, 0, 0);
  }

  lemma WrappedStart(m: nat, workers: nat, w: nat)
    requires w < workers && m > 0
    ensures WrappedShare(0, m, workers, w) == 0 && 0 % m == 0
  {
    DivMod(0, m, 0, 0);
    ShareNone(workers, w);
  }

  lemma WrappedFirst(n: nat, m: nat, workers: nat, w: nat)
    requires w < workers && m > 0 && n <= m
    ensures WrappedShare(n, m, workers, w) == Share(n, workers, w)
  {
    ShareNone(workers, w);
    if n < m { DivMod(n, m, 0, n); } else { DivMod(n, m, 1, 0); }
  }

  /** What a step does to the counter and to the tokens of pipe w. */
  predicate PipesAfter(s: State, e: Event, s': State, w: nat)
    requires w < |s.pipes|
  {
    && |s'.pipes| == |s.pipes|
    && (if WritesToken(s, e)
        then s'.bgId == Inc64(s.bgId) && s'.pipes[w] == s.pipes[w] + (if s.bgId % |s.pipes| == w then 1 else 0)
        else s'.bgId == s.bgId && s'.pipes[w] + (if e == Read(w) then 1 else 0) == s.pipes[w])
  }

  lemma MainPipes(s: State, w: nat)
    requires MainEnabled(s) && w < |s.pipes| && (s.manager.Running? ==> Live(s, s.curr))
    ensures PipesAfter(s, Main, MainStep(s), w)
  {
  }

  lemma StepPipes(s: State, e: Event, w: nat)
    requires Enabled(s, e) && w < |s.pipes| && (s.manager.Running? ==> Live(s, s.curr))
    ensures PipesAfter(s, e, Step(s, e), w)
  {
    if e.Main? { MainPipes(s, w); }
  }

  lemma RunnerLives(workers: nat, es: seq<Event>)
    requires workers >= 1 && Possible(Init(workers), es)
    ensures var s := After(Init(workers), es); s.manager.Running? ==> Live(s, s.curr)
  {
    RunInv(workers, es);
    OneManager(After(Init(workers), es));
  }

  lemma RunSteps(workers: nat, es: seq<Event>, w: nat)
    requires w < workers && es != [] && Possible(Init(workers), es)
    requires w < |After(Init(workers), es[..|es| - 1]).pipes|
    ensures var before := es[..|es| - 1];
            PipesAfter(After(Init(workers), before), es[|es| - 1], After(Init(workers), es), w)
  {
    var before := es[..|es| - 1];
    RunnerLives(workers, before);
    StepPipes(After(Init(workers), before), es[|es| - 1], w);
  }

  lemma RunPipes(workers: nat, es: seq<Event>, w: nat)
    requires w < workers && es != [] && Possible(Init(workers), es)
    requires w < |After(Init(workers), es[..|es| - 1]).pipes|
    ensures var before := es[..|es| - 1];
            var s, s' := After(Init(workers), before), After(Init(workers), es);
            var written := WritesToken(s, es[|es| - 1]);
            && |s'.pipes| == |s.pipes|
            && Notifications(workers, es) == Notifications(workers, before) + (if written then 1 else 0)
            && s'.bgId == (if written then Inc64(s.bgId) else s.bgId)
            && Given(workers, es, w) == Given(workers, before, w) + (if written && s.bgId % |s.pipes| == w then 1 else 0)
  {
    RunSteps(workers, es, w);
  }

  /** After n notifications: what the counter shows, and what pipe w has been given. */
  predicate Tally(n: nat, workers: nat, w: nat, counter: nat, given: nat)
    requires w < workers
  {
    counter == Counter(n, TWO_TO_THE_64) && given == Turns(n, TWO_TO_THE_64, workers, w)
  }

  /** One more event, which may write a token. */
  lemma TallyNext(n: nat, n': nat, workers: nat, w: nat, counter: nat, counter': nat, given: nat, given': nat)
    requires w < workers && Tally(n, workers, w, counter, given)
    requires (n' == n && counter' == counter && given' == given)
          || (n' == n + 1 && counter' == Inc64(counter) && given' == given + (if counter % workers == w then 1 else 0))
    ensures Tally(n', workers, w, counter', given')
  {
  }

  predicate InTurn(workers: nat, es: seq<Event>, w: nat)
    requires w < workers && Possible(Init(workers), es)
  {
    var s := After(Init(workers), es);
    |s.pipes| == workers && Tally(Notifications(workers, es), workers, w, s.bgId, Given(workers, es, w))
  }

  lemma NoneGiven(workers: nat, w: nat)
    requires w < workers
    ensures InTurn(workers, [], w)
  {
  }

  lemma OneMoreGiven(workers: nat, es: seq<Event>, w: nat)
    requires w < workers && es != [] && Possible(Init(workers), es) && InTurn(workers, es[..|es| - 1], w)
    ensures InTurn(workers, es, w)
  {
    var s, s' := After(Init(workers), es[..|es| - 1]), After(Init(workers), es);
    var n, n' := Notifications(workers, es[..|es| - 1]), Notifications(workers, es);
    RunPipes(workers, es, w);
    TallyNext(n, n', workers, w, s.bgId, s'.bgId, Given(workers, es[..|es| - 1], w), Given(workers, es, w));
  }

  lemma {:induction false} GivenTurns(workers: nat, es: seq<Event>, w: nat)
    requires w < workers && Possible(Init(workers), es)
    ensures InTurn(workers, es, w)
    decreases |es|
  {
    if es == [] {
      NoneGiven(workers, w);
    } else {
      GivenTurns(workers, es[..|es| - 1], w);
      OneMoreGiven(workers, es, w);
    }
  }

  /** The exact law, for any number of notifications: the counter is a uint64_t. */
  lemma GivenExactly(workers: nat, es: seq<Event>, w: nat)
    requires w < workers && Possible(Init(workers), es)
    ensures var s, n := After(Init(workers), es), Notifications(workers, es);
            && |s.pipes| == workers && s.bgId == n % TWO_TO_THE_64
            && Given(workers, es, w) == WrappedShare(n, TWO_TO_THE_64, workers, w)
  {
    GivenTurns(workers, es, w);
    TurnsAreShares(Notifications(workers, es), TWO_TO_THE_64, workers, w);
    CounterIsMod(Notifications(workers, es), TWO_TO_THE_64);
  }

  /** While the counter has not wrapped, every pipe has been given floor(n / W) or ceil(n / W) tokens. */
  lemma Balanced(workers: nat, es: seq<Event>, w: nat)
    requires w < workers && Possible(Init(workers), es) && Notifications(workers, es) <= TWO_TO_THE_64
    ensures |After(Init(workers), es).pipes| == workers
    ensures var n := Notifications(workers, es);
            Given(workers, es, w) == n / workers + (if w < n % workers then 1 else 0)
  {
    GivenExactly(workers, es, w);
    WrappedFirst(Notifications(workers, es), TWO_TO_THE_64, workers, w);
  }

  predicate EvenAt(n: nat, m: nat, workers: nat)
    requires workers > 0 && m > 0
  {
    forall w, v :: 0 <= w < workers && 0 <= v < workers ==>
      WrappedShare(n, m, workers, w) <= WrappedShare(n, m, workers, v) + 1
  }

  /** The turns stay even for ever exactly when the number of workers divides the range of the counter. */
  lemma EvenForEver(m: nat, workers: nat)
    requires workers > 0 && m > 0
    ensures (forall n: nat :: EvenAt(n, m, workers)) <==> m % workers == 0
  {
    if m % workers == 0 {
      forall n: nat, w: nat, v: nat | w < workers && v < workers
        ensures WrappedShare(n, m, workers, w) <= WrappedShare(n, m, workers, v) + 1
      {
      }
      assert forall n: nat :: EvenAt(n, m, workers);
    } else {
      DivMod(2 * m, m, 2, 0);
      assert WrappedShare(2 * m, m, workers, 0) == 2 * Share(m, workers, 0);
      assert WrappedShare(2 * m, m, workers, workers - 1) == 2 * Share(m, workers, workers - 1);
      assert !EvenAt(2 * m, m, workers);
    }
  }
}
