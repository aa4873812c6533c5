/**
 The history of a coroutine, read off the events of a run: what it asked for, what the kernel
 answered, and what it was given. The histories kept beside the records are proved to be these.
*/
module Observed {
  import opened Actions
  import opened Scheduler
  import opened Seqs
  import opened Invariant
  import opened Runs
  import opened Delivery

  /** The requests that do_task answers before it returns. */
  predicate AtOnce(a: Action, immediate: bool) {
    match a
    case DiskOpen => true
    case DiskRead => true
    case DiskWrite => true
    case BlockedConnect => true
    case BgRun => true
    case TimeoutConnect => immediate
    case _ => false
  }

  /** The request that coroutine t issues in this event. */
  function Asked(s: State, e: Event, t: Id): seq<Request> {
    if e.Choose? && e.op.Call? && s.curr == t then [e.op.req] else []
  }

  /** The kernel's answer to the request of t: the worker at it executes it, or a watcher ends it. */
  function Told(s: State, e: Event, t: Id): seq<Ret> {
    match e
    case Work(w, raw, immediate) =>
      if w < |s.workers| && s.workers[w] == Exec(t) && t in s.tasks && AtOnce(s.tasks[t].action, immediate) then [raw] else []
    case Fire(_, u, _, fired) => if u == t && fired.Some? then [fired.value] else []
    case _ => []
  }

  function AskedIn(workers: nat, es: seq<Event>, t: Id): seq<Request>
    requires Possible(Init(workers), es)
    decreases |es|
  {
    if es == [] then [] else
    AskedIn(workers, es[..|es| - 1], t) + Asked(After(Init(workers), es[..|es| - 1]), es[|es| - 1], t)
  }

  function ToldIn(workers: nat, es: seq<Event>, t: Id): seq<Ret>
    requires Possible(Init(workers), es)
    decreases |es|
  {
    if es == [] then [] else
    ToldIn(workers, es[..|es| - 1], t) + Told(After(Init(workers), es[..|es| - 1]), es[|es| - 1], t)
  }

  /** The value of an answer, by the kind of request: sleeping always yields 0. */
  function ValueFor(a: Action, raw: Ret): int { if a.Msleep? then 0 else raw.val }

  /** Its error code: the callback's for a socket transfer, errno after any other failure of the kernel. */
  function ErrorFor(a: Action, raw: Ret): int {
    match a
    case Msleep => 0
    case BgRun => 0
    case SockRead => raw.err
    case SockWrite => raw.err
    case _ => if raw.val < 0 then raw.err else 0
  }

  predicate StoredFor(a: Action, raw: Ret, ret: Ret) { ret.val == ValueFor(a, raw) && ret.err == ErrorFor(a, raw) }

  /** The history agrees with the requests issued and the answers given. */
  predicate Agrees(l: Log, asked: seq<Request>, told: seq<Ret>) {
    && l.issued == asked && |l.execs| == |told| <= |asked|
    && (forall k :: 0 <= k < |told| ==> l.execs[k].req == asked[k] && StoredFor(asked[k].action, told[k], l.execs[k].ret))
  }

  // ----- one step -----

  predicate Unanswered(l: Log, l': Log) { l'.issued == l.issued && l'.execs == l.execs }

  /** What an event adds to the history of t is what it asks and tells. */
  predicate Adds(l: Log, l': Log, asked: seq<Request>, told: seq<Ret>) {
    && l'.issued == l.issued + asked && |told| <= 1
    && |l'.execs| == |l.execs| + |told| && l.execs <= l'.execs
    && (told != [] ==> |l.execs| < |l.issued| && StoredFor(l.issued[|l.execs|].action, told[0], l'.execs[|l.execs|].ret))
  }

  /** The manager loop leaves what matters of every history as it is; it only counts what it frees. */
  lemma LoopLeaves(s: State, t: Id)
    requires MainEnabled(s) && !s.manager.Running? && t < |s.logs|
    ensures |MainStep(s).logs| == |s.logs| && Unanswered(s.logs[t], MainStep(s).logs[t])
    ensures MainStep(s).logs[t].trace == s.logs[t].trace
  {
  }

  /** Inside a library call a coroutine asks for nothing and is told nothing. */
  lemma CallLeaves(s: State, t: Id)
    requires ManagerOk(s) && MainEnabled(s) && s.manager.Running? && t < |s.logs|
    ensures |MainStep(s).logs| == |s.logs|
    ensures MainStep(s).logs[t] == s.logs[t] || (s.manager.at == GetRet && s.curr == t)
    ensures Unanswered(s.logs[t], MainStep(s).logs[t])
  {
  }

  lemma MainAnswersNot(s: State, t: Id)
    requires ManagerOk(s) && MainEnabled(s) && t < |s.logs|
    ensures |MainStep(s).logs| == |s.logs| && Unanswered(s.logs[t], MainStep(s).logs[t])
  {
    if s.manager.Running? { CallLeaves(s, t); } else { LoopLeaves(s, t); }
  }

  lemma ChoiceAsks(s: State, op: Op, t: Id)
    requires ManagerOk(s) && ChooseEnabled(s, op) && t < |s.logs|
    ensures var l, l' := s.logs[t], ChooseStep(s, op).logs[t];
            |ChooseStep(s, op).logs| >= |s.logs| && l'.execs == l.execs && l'.issued == l.issued + Asked(s, Choose(op), t)
  {
  }

  /** A worker's steps around the handler ask nothing and tell nothing. */
  lemma PhaseTellsNot(s: State, w: nat, raw: Ret, immediate: bool, t: Id)
    requires WorkEnabled(s, w) && !s.workers[w].Exec? && t < |s.logs|
    ensures |WorkStep(s, w, raw, immediate).logs| == |s.logs|
    ensures Unanswered(s.logs[t], WorkStep(s, w, raw, immediate).logs[t])
    ensures WorkStep(s, w, raw, immediate).logs[t].trace == s.logs[t].trace
  {
  }

  /** The handler answers the request it executes, if that is answered at once. */
  lemma HandlerTells(s: State, w: nat, raw: Ret, immediate: bool, t: Id)
    requires WorkEnabled(s, w) && WorkerOk(s, w) && s.workers[w].Exec? && t < |s.logs|
    ensures |WorkStep(s, w, raw, immediate).logs| == |s.logs|
    ensures var told := Told(s, Work(w, raw, immediate), t);
            Adds(s.logs[t], WorkStep(s, w, raw, immediate).logs[t], [], told)
  {
  }

  lemma FireTells(s: State, w: nat, u: Id, timer: bool, fired: Option<Ret>, t: Id)
    requires FireEnabled(s, w, u, timer, fired) && WatchOk(s, u) && RecordOk(s, u) && t < |s.logs|
    ensures |FireStep(s, w, u, timer, fired).logs| == |s.logs|
    ensures var told := Told(s, Fire(w, u, timer, fired), t);
            Adds(s.logs[t], FireStep(s, w, u, timer, fired).logs[t], [], told)
  {
  }

  lemma StepAdds(s: State, e: Event, t: Id)
    requires Inv(s) && Allowed(s, e) && t < |s.logs|
    ensures t < |Step(s, e).logs| && Adds(s.logs[t], Step(s, e).logs[t], Asked(s, e, t), Told(s, e, t))
  {
    match e
    case Main => OneManager(s); MainAnswersNot(s, t);
    case Choose(op) => OneManager(s); ChoiceAsks(s, op, t);
    case Work(w, raw, immediate) =>
      OneWorker(s, w);
      if s.workers[w].Exec? { HandlerTells(s, w, raw, immediate, t); } else { PhaseTellsNot(s, w, raw, immediate, t); }
    case Fire(w, u, timer, fired) => OneWatch(s, u); OneRecord(s, u); FireTells(s, w, u, timer, fired, t);
    case _ =>
  }

  /** Before a coroutine is created no event concerns it, and it is created with an empty history. */
  lemma NotBefore(s: State, e: Event, t: Id)
    requires Inv(s) && Allowed(s, e) && t >= |s.logs|
    ensures Asked(s, e, t) == [] && Told(s, e, t) == []
    ensures t < |Step(s, e).logs| ==> Step(s, e).logs[t] == EmptyLog
  {
    match e
    case Main => MainAges(s);
    case Choose(op) => OneManager(s);
    case Work(w, raw, immediate) => OneWorker(s, w);
    case Fire(w, u, timer, fired) => OneWatch(s, u);
    case _ =>
  }

  lemma MainAges(s: State)
    requires MainEnabled(s)
    ensures |MainStep(s).logs| == |s.logs|
  {
  }

  lemma Extended(l: Log, l': Log, asked: seq<Request>, told: seq<Ret>, a: seq<Request>, r: seq<Ret>)
    requires Agrees(l, asked, told) && Adds(l, l', a, r) && LogCore(l')
    ensures Agrees(l', asked + a, told + r)
  {
    forall k | 0 <= k < |told + r|
      ensures l'.execs[k].req == (asked + a)[k] && StoredFor((asked + a)[k].action, (told + r)[k], l'.execs[k].ret)
    {
      if k < |told| { assert l'.execs[k] == l.execs[k]; }
    }
  }

  // ----- runs -----

  /** In every run the history of t is what the events say; before t is created they say nothing. */
  lemma {:induction false} RunAgrees(workers: nat, es: seq<Event>, t: Id)
    requires workers >= 1 && Possible(Init(workers), es)
    ensures var s := After(Init(workers), es);
            var asked, told := AskedIn(workers, es, t), ToldIn(workers, es, t);
            if t < |s.logs| then Agrees(s.logs[t], asked, told) else asked == [] && told == []
    decreases |es|
  {
    if es != [] {
      var before, e := es[..|es| - 1], es[|es| - 1];
      var s := After(Init(workers), before);
      RunAgrees(workers, before, t);
      RunInv(workers, before);
      if t < |s.logs| {
        StepAdds(s, e, t);
        StepKeeps(s, e);
        OneLog(Step(s, e), t);
        Extended(s.logs[t], Step(s, e).logs[t], AskedIn(workers, before, t), ToldIn(workers, before, t),
                 Asked(s, e, t), Told(s, e, t));
      } else {
        NotBefore(s, e, t);
      }
    }
  }

  lemma OneLog(s: State, t: Id)
    requires Inv(s) && t < |s.logs|
    ensures LogCore(s.logs[t])
  {
    OpenEach(s);
    assert LogOk(s, t);
  }

  /**
   The whole way of a result, from event to event: the k-th result that coroutine t reads is the
   answer of the kernel to its k-th request, through int; and nothing is read before it is answered.
  */
  lemma ReadsAreAnswers(workers: nat, es: seq<Event>, t: Id, k: nat)
    requires workers >= 1 && Possible(Init(workers), es) && t < |After(Init(workers), es).logs|
    requires k < |After(Init(workers), es).logs[t].got|
    ensures var asked, told := AskedIn(workers, es, t), ToldIn(workers, es, t);
            && k < |told| <= |asked|
            && After(Init(workers), es).logs[t].got[k]
               == Ret(AsInt(ValueFor(asked[k].action, told[k])), ErrorFor(asked[k].action, told[k]))
  {
    RunAgrees(workers, es, t);
    ResultsDelivered(workers, es, t);
    var l := After(Init(workers), es).logs[t];
    assert StoredFor(l.issued[k].action, ToldIn(workers, es, t)[k], l.execs[k].ret);
  }

  // ----- what a coroutine sees -----

  predicate ReadsResult(s: State, e: Event, t: Id) {
    e.Main? && s.manager.Running? && s.manager.at == GetRet && s.curr == t
  }

  /** What the latest answer lets the coroutine read. */
  function LastAnswer(asked: seq<Request>, told: seq<Ret>): Ret
    requires 0 < |told| <= |asked|
  {
    var k := |told| - 1;
    Ret(AsInt(ValueFor(asked[k].action, told[k])), ErrorFor(asked[k].action, told[k]))
  }

  /** The operations that t chooses and the results it reads, in order. */
  function SeenIn(workers: nat, es: seq<Event>, t: Id): seq<Entry>
    requires Possible(Init(workers), es)
    decreases |es|
  {
    if es == [] then [] else
    var before, e := es[..|es| - 1], es[|es| - 1];
    var s, asked, told := After(Init(workers), before), AskedIn(workers, before, t), ToldIn(workers, before, t);
    SeenIn(workers, before, t)
    + (if e.Choose? && s.curr == t then [Issued(e.op)]
       else if ReadsResult(s, e, t) && 0 < |told| <= |asked| then [Got(LastAnswer(asked, told))] else [])
  }

  lemma ReadShows(s: State, t: Id)
    requires ManagerOk(s) && ReadsResult(s, Main, t)
    ensures Live(s, t) && t < |MainStep(s).logs|
    ensures MainStep(s).logs[t].trace == s.logs[t].trace + [Got(Ret(AsInt(s.tasks[t].ret.val), s.tasks[t].ret.err))]
  {
  }

  lemma MainShowsNot(s: State, t: Id)
    requires ManagerOk(s) && MainEnabled(s) && t < |s.logs| && !ReadsResult(s, Main, t)
    ensures |MainStep(s).logs| == |s.logs| && MainStep(s).logs[t].trace == s.logs[t].trace
  {
    if s.manager.Running? { CallLeaves(s, t); } else { LoopLeaves(s, t); }
  }

  lemma HandlerShowsNot(s: State, w: nat, raw: Ret, immediate: bool, t: Id)
    requires WorkEnabled(s, w) && s.workers[w].Exec? && t < |s.logs|
    ensures |WorkStep(s, w, raw, immediate).logs| == |s.logs| && WorkStep(s, w, raw, immediate).logs[t].trace == s.logs[t].trace
  {
  }

  lemma OthersShowNot(s: State, e: Event, t: Id)
    requires Enabled(s, e) && !e.Main? && !e.Choose? && !e.Work? && t < |s.logs|
    ensures |Step(s, e).logs| >= |s.logs| && Step(s, e).logs[t].trace == s.logs[t].trace
  {
  }

  lemma ChoiceShows(s: State, op: Op, t: Id)
    requires ManagerOk(s) && ChooseEnabled(s, op) && Disciplined(s, op) && SemsOk(s) && t < |s.logs|
    ensures |ChooseStep(s, op).logs| >= |s.logs|
    ensures ChooseStep(s, op).logs[t].trace == s.logs[t].trace + (if s.curr == t then [Issued(op)] else [])
  {
    if op.SemPost? { assert SemOk(s, op.k); }
  }

  /** A coroutine about to read finds the latest answer in its record. */
  lemma AnswerInRecord(s: State, t: Id)
    requires Inv(s) && ReadsResult(s, Main, t)
    ensures Live(s, t) && s.logs[t].execs != []
    ensures s.tasks[t].ret == s.logs[t].execs[|s.logs[t].execs| - 1].ret
  {
    OneManager(s);
    OneRecord(s, t);
  }

  /** In every run the trace of t is the operations it chose and the answers it read. */
  lemma {:induction false} RunShows(workers: nat, es: seq<Event>, t: Id)
    requires workers >= 1 && Possible(Init(workers), es)
    ensures var s := After(Init(workers), es);
            SeenIn(workers, es, t) == if t < |s.logs| then s.logs[t].trace else []
    decreases |es|
  {
    if es != [] {
      var before, e := es[..|es| - 1], es[|es| - 1];
      var s := After(Init(workers), before);
      RunShows(workers, before, t);
      RunAgrees(workers, before, t);
      RunInv(workers, before);
      if t < |s.logs| {
        StepShows(s, e, t, AskedIn(workers, before, t), ToldIn(workers, before, t));
      } else {
        NotBefore(s, e, t);
        OneManager(s);
      }
    }
  }

  lemma StepShows(s: State, e: Event, t: Id, asked: seq<Request>, told: seq<Ret>)
    requires Inv(s) && Allowed(s, e) && t < |s.logs| && Agrees(s.logs[t], asked, told)
    ensures t < |Step(s, e).logs|
    ensures ReadsResult(s, e, t) ==> told != []
    ensures Step(s, e).logs[t].trace == s.logs[t].trace
      + (if e.Choose? && s.curr == t then [Issued(e.op)] else if ReadsResult(s, e, t) then [Got(LastAnswer(asked, told))] else [])
  {
    match e
    case Main =>
      OneManager(s);
      if ReadsResult(s, e, t) { AnswerInRecord(s, t); ReadShows(s, t); } else { MainShowsNot(s, t); }
    case Choose(op) => OneManager(s); AllSems(s); ChoiceShows(s, op, t);
    case Work(w, raw, immediate) =>
      if s.workers[w].Exec? { HandlerShowsNot(s, w, raw, immediate, t); } else { PhaseTellsNot(s, w, raw, immediate, t); }
    case _ => OthersShowNot(s, e, t);
  }
}
