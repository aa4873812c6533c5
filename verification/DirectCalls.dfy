/**
 Every asynchronous run looks, to each coroutine, like a run in which its requests are direct
 calls: what it issues and what it reads is what its program does alone with the same answers.
*/
module DirectCalls {
  import opened Actions
  import opened Scheduler
  import opened Seqs
  import opened Invariant
  import opened Runs
  import Delivery

  /** A coroutine's code: the next operation, given everything it has done and read so far. */
  type Program = seq<Entry> -> Op

  /** In the run, each coroutine t chooses as prog(t) tells it. */
  ghost predicate Follows(s: State, es: seq<Event>, prog: Id -> Program)
    requires Possible(s, es)
    decreases |es|
  {
    es == [] ||
    (var before, e := es[..|es| - 1], es[|es| - 1];
     Follows(s, before, prog) && Obeys(After(s, before), e, prog))
  }

  ghost predicate Obeys(s: State, e: Event, prog: Id -> Program) {
    e.Choose? && s.manager.Running? && s.manager.t < |s.logs| ==> e.op == prog(s.manager.t)(s.logs[s.manager.t].trace)
  }

  /** The requests in a trace, in order. */
  function Requests(tr: seq<Entry>): seq<Request> {
    if tr == [] then [] else
    var e := tr[|tr| - 1];
    Requests(tr[..|tr| - 1]) + (if e.Issued? && e.op.Call? then [e.op.req] else [])
  }

  /** n operations of a program on its own; the k-th call is answered by answers[k], at once. */
  ghost function DirectRun(p: Program, answers: seq<Ret>, n: nat): seq<Entry> {
    if n == 0 then [] else
    var tr := DirectRun(p, answers, n - 1);
    var k := |Requests(tr)|;
    tr + [Issued(p(tr))] + (if p(tr).Call? && k < |answers| then [Got(answers[k])] else [])
  }

  /** n operations of a program whose calls the world answers synchronously. */
  ghost function SyncRun(p: Program, world: Request -> Ret, n: nat): seq<Entry> {
    if n == 0 then [] else
    var tr := SyncRun(p, world, n - 1);
    var op := p(tr);
    tr + [Issued(op)] + (if op.Call? then [Got(Delivered(world(op.req)))] else [])
  }

  lemma RequestsOne(tr: seq<Entry>, e: Entry)
    ensures Requests(tr + [e]) == Requests(tr) + (if e.Issued? && e.op.Call? then [e.op.req] else [])
  {
    assert (tr + [e])[..|tr|] == tr;
  }

  /** What the n-th operation adds to the requests. */
  lemma RequestsStep(p: Program, answers: seq<Ret>, n: nat)
    requires n > 0
    ensures var tr := DirectRun(p, answers, n - 1);
            Requests(DirectRun(p, answers, n)) == Requests(tr) + (if p(tr).Call? then [p(tr).req] else [])
  {
    var tr := DirectRun(p, answers, n - 1);
    var k := |Requests(tr)|;
    RequestsOne(tr, Issued(p(tr)));
    if p(tr).Call? && k < |answers| {
      RequestsOne(tr + [Issued(p(tr))], Got(answers[k]));
    } else {
      assert tr + [Issued(p(tr))] + [] == tr + [Issued(p(tr))];
    }
  }

  /** Answers beyond the calls made do not matter. */
  lemma {:induction false} MoreAnswers(p: Program, answers: seq<Ret>, r: Ret, n: nat)
    requires |Requests(DirectRun(p, answers, n))| <= |answers|
    ensures DirectRun(p, answers + [r], n) == DirectRun(p, answers, n)
  {
    if n > 0 {
      RequestsStep(p, answers, n);
      MoreAnswers(p, answers, r, n - 1);
    }
  }

  /** If the answers are the world's, the two ways to run a program agree. */
  lemma {:induction false} DirectIsSync(p: Program, world: Request -> Ret, answers: seq<Ret>, n: nat)
    requires var rs := Requests(DirectRun(p, answers, n));
             |rs| <= |answers| && forall k :: 0 <= k < |rs| ==> answers[k] == Delivered(world(rs[k]))
    ensures DirectRun(p, answers, n) == SyncRun(p, world, n)
  {
    if n > 0 {
      RequestsStep(p, answers, n);
      var rs, rs' := Requests(DirectRun(p, answers, n)), Requests(DirectRun(p, answers, n - 1));
      assert forall k :: 0 <= k < |rs'| ==> rs'[k] == rs[k];
      DirectIsSync(p, world, answers, n - 1);
    }
  }

  // ----- the trace of every coroutine -----

  predicate InCall(l: Log) {
    l.trace != [] && l.trace[|l.trace| - 1].Issued? && l.trace[|l.trace| - 1].op.Call?
  }

  ghost predicate TraceOk(l: Log, p: Program) {
    && l.trace == DirectRun(p, l.got, l.ops) && Requests(l.trace) == l.issued
    && (|l.issued| == |l.got| + 1 ==> InCall(l))
  }

  predicate SameTrace(l: Log, l': Log) {
    l'.trace == l.trace && l'.ops == l.ops && l'.issued == l.issued && l'.got == l.got
  }

  lemma TraceChosen(l: Log, l': Log, p: Program, op: Op)
    requires TraceOk(l, p) && |l.issued| == |l.got| && op == p(l.trace)
    requires l'.trace == l.trace + [Issued(op)] && l'.ops == l.ops + 1 && l'.got == l.got
    requires l'.issued == l.issued + (if op.Call? then [op.req] else [])
    ensures TraceOk(l', p)
  {
    RequestsOne(l.trace, Issued(op));
    assert l.trace + [Issued(op)] + [] == l.trace + [Issued(op)];
  }

  lemma TraceAnswered(l: Log, l': Log, p: Program, r: Ret)
    requires TraceOk(l, p) && |l.issued| == |l.got| + 1
    requires l'.trace == l.trace + [Got(r)] && l'.ops == l.ops && l'.got == l.got + [r] && l'.issued == l.issued
    ensures TraceOk(l', p)
  {
    assert l.ops > 0;
    RequestsOne(l.trace, Got(r));
    LastAnswered(p, l.got, r, l.ops);
  }

  /** A run that waits for an answer takes the next one, and stops there. */
  lemma LastAnswered(p: Program, answers: seq<Ret>, r: Ret, n: nat)
    requires n > 0 && var tr := DirectRun(p, answers, n); tr[|tr| - 1].Issued? && tr[|tr| - 1].op.Call?
    requires |Requests(DirectRun(p, answers, n))| == |answers| + 1
    ensures DirectRun(p, answers + [r], n) == DirectRun(p, answers, n) + [Got(r)]
  {
    LastIsCall(p, answers, n);
    MoreAnswers(p, answers, r, n - 1);
  }

  /** A run that ends in a call ends there because no answer is left. */
  lemma LastIsCall(p: Program, answers: seq<Ret>, n: nat)
    requires n > 0 && var tr := DirectRun(p, answers, n); tr[|tr| - 1].Issued? && tr[|tr| - 1].op.Call?
    requires |Requests(DirectRun(p, answers, n))| == |answers| + 1
    ensures var tr := DirectRun(p, answers, n - 1);
            p(tr).Call? && |Requests(tr)| == |answers| && DirectRun(p, answers, n) == tr + [Issued(p(tr))]
  {
    RequestsStep(p, answers, n);
    var tr := DirectRun(p, answers, n - 1);
    assert tr + [Issued(p(tr))] + [] == tr + [Issued(p(tr))];
  }

  ghost predicate TracesOk(s: State, prog: Id -> Program) {
    forall t {:trigger s.logs[t]} :: 0 <= t < |s.logs| ==> TraceOk(s.logs[t], prog(t))
  }

  /** The running coroutine, and whether its last request is answered. */
  lemma RunningLog(s: State)
    requires Inv(s) && s.manager.Running?
    ensures Live(s, s.manager.t) && s.curr == s.manager.t
    ensures s.manager.at == User ==> |s.logs[s.curr].issued| == |s.logs[s.curr].got|
    ensures s.manager.at == GetRet ==> |s.logs[s.curr].issued| == |s.logs[s.curr].got| + 1
  {
    Open(s);
    assert RecordOk(s, s.manager.t);
  }

  /** All traces but that of coroutine c, and the empty ones of new coroutines, are as before. */
  predicate TracesKept(s: State, s': State, c: Id) {
    && |s.logs| <= |s'.logs|
    && (forall t {:trigger s'.logs[t]} :: 0 <= t < |s'.logs| && t != c ==>
          if t < |s.logs| then SameTrace(s.logs[t], s'.logs[t]) else s'.logs[t] == EmptyLog)
  }

  lemma TracesFrom(s: State, s': State, c: Id, prog: Id -> Program)
    requires TracesOk(s, prog) && TracesKept(s, s', c) && (c < |s'.logs| ==> TraceOk(s'.logs[c], prog(c)))
    ensures TracesOk(s', prog)
  {
  }

  /** The manager thread touches a trace only where a coroutine reads its result. */
  lemma MainTraces(s: State)
    requires MainEnabled(s) && (s.manager.Running? ==> Live(s, s.curr))
    ensures |MainStep(s).logs| == |s.logs|
    ensures TracesKept(s, MainStep(s), if RunsAt(s.manager, GetRet) then s.curr else |s.logs|)
    ensures RunsAt(s.manager, GetRet) ==>
              var l, l' := s.logs[s.curr], MainStep(s).logs[s.curr];
              && l'.trace == l.trace + [Got(Delivered(s.tasks[s.curr].ret))] && l'.ops == l.ops
              && l'.got == l.got + [Delivered(s.tasks[s.curr].ret)] && l'.issued == l.issued
  {
    if s.manager.Running? { ContinueTraces(s, s.manager.t, s.manager.at); }
  }

  lemma ContinueTraces(s: State, t: Id, at: Point)
    requires at != User && Live(s, s.curr) && s.manager == Running(t, at)
    ensures |Continue(s, t, at).logs| == |s.logs|
    ensures TracesKept(s, Continue(s, t, at), if at.GetRet? then s.curr else |s.logs|)
  {
  }

  lemma TracesRead(s: State, prog: Id -> Program)
    requires RunsAt(s.manager, GetRet) && Live(s, s.curr) && TracesOk(s, prog)
    requires |s.logs[s.curr].issued| == |s.logs[s.curr].got| + 1
    ensures TracesOk(MainStep(s), prog)
  {
    var s' := MainStep(s);
    MainTraces(s);
    TraceAnswered(s.logs[s.curr], s'.logs[s.curr], prog(s.curr), Delivered(s.tasks[s.curr].ret));
    TracesFrom(s, s', s.curr, prog);
  }

  lemma TracesMain(s: State, prog: Id -> Program)
    requires Inv(s) && MainEnabled(s) && TracesOk(s, prog)
    ensures TracesOk(MainStep(s), prog)
  {
    Open(s);
    if s.manager.Running? { RunningLog(s); }
    if RunsAt(s.manager, GetRet) {
      TracesRead(s, prog);
    } else {
      MainTraces(s);
      TracesFrom(s, MainStep(s), |s.logs|, prog);
    }
  }

  lemma ChooseTraces(s: State, op: Op)
    requires ChooseEnabled(s, op) && Live(s, s.curr)
    requires op.SemPost? ==> op.k in s.sems && (s.sems[op.k].waiter.Some? ==> Live(s, s.sems[op.k].waiter.value))
    ensures TracesKept(s, ChooseStep(s, op), s.curr)
    ensures var l, l' := s.logs[s.curr], ChooseStep(s, op).logs[s.curr];
            && l'.trace == l.trace + [Issued(op)] && l'.ops == l.ops + 1 && l'.got == l.got
            && l'.issued == l.issued + (if op.Call? then [op.req] else [])
  {
  }

  lemma TracesChoose(s: State, op: Op, prog: Id -> Program)
    requires Inv(s) && Allowed(s, Choose(op)) && TracesOk(s, prog) && Obeys(s, Choose(op), prog)
    ensures TracesOk(ChooseStep(s, op), prog)
  {
    Open(s);
    RunningLog(s);
    if op.SemPost? { assert SemOk(s, op.k); }
    ChooseTraces(s, op);
    TraceChosen(s.logs[s.curr], ChooseStep(s, op).logs[s.curr], prog(s.curr), op);
    TracesFrom(s, ChooseStep(s, op), s.curr, prog);
  }

  lemma OtherTraces(s: State, e: Event)
    requires Enabled(s, e) && !e.Main? && !e.Choose?
    ensures TracesKept(s, Step(s, e), |s.logs|)
    ensures (|Step(s, e).logs| > |s.logs| ==> Step(s, e).logs[|s.logs|] == EmptyLog)
  {
    if e.Work? { WorkTraces(s, e.w, e.raw, e.immediate); }
  }

  lemma WorkTraces(s: State, w: nat, raw: Ret, immediate: bool)
    requires WorkEnabled(s, w)
    ensures TracesKept(s, WorkStep(s, w, raw, immediate), |s.logs|) && |WorkStep(s, w, raw, immediate).logs| == |s.logs|
  {
  }

  lemma TracesOther(s: State, e: Event, prog: Id -> Program)
    requires Enabled(s, e) && !e.Main? && !e.Choose? && TracesOk(s, prog)
    ensures TracesOk(Step(s, e), prog)
  {
    OtherTraces(s, e);
    TracesFrom(s, Step(s, e), |s.logs|, prog);
  }

  lemma {:induction false} RunTraces(workers: nat, es: seq<Event>, prog: Id -> Program)
    requires workers >= 1 && Possible(Init(workers), es) && Follows(Init(workers), es, prog)
    ensures TracesOk(After(Init(workers), es), prog)
    decreases |es|
  {
    if es != [] {
      var before, e := es[..|es| - 1], es[|es| - 1];
      RunTraces(workers, before, prog);
      RunInv(workers, before);
      var s := After(Init(workers), before);
      match e
      case Main => TracesMain(s, prog);
      case Choose(op) => TracesChoose(s, op, prog);
      case _ => TracesOther(s, e, prog);
    }
  }

  /**
   Refinement: the trace of coroutine t in any interleaving is the direct run of its program on
   the answers it read, and those are, in order, the results of executing its own requests.
   */
  lemma AsyncIsDirect(workers: nat, es: seq<Event>, prog: Id -> Program, t: Id)
    requires workers >= 1 && Possible(Init(workers), es) && Follows(Init(workers), es, prog)
    requires t < |After(Init(workers), es).logs|
    ensures var l := After(Init(workers), es).logs[t];
      && l.trace == DirectRun(prog(t), l.got, l.ops) && Requests(l.trace) == l.issued
      && |l.got| <= |l.execs| <= |l.issued| <= |l.got| + 1
      && (forall k :: 0 <= k < |l.got| ==> l.execs[k].req == Requests(l.trace)[k] && l.got[k] == Delivered(l.execs[k].ret))
  {
    RunTraces(workers, es, prog);
    Delivery.ResultsDelivered(workers, es, t);
  }

  /**
   If every execution in the run answered as the function `world`, the coroutine did exactly what
   it does with synchronous calls to the world, whatever the interleaving and number of workers.
   */
  lemma AsyncIsSync(workers: nat, es: seq<Event>, prog: Id -> Program, t: Id, world: Request -> Ret)
    requires workers >= 1 && Possible(Init(workers), es) && Follows(Init(workers), es, prog)
    requires t < |After(Init(workers), es).logs|
    requires var l := After(Init(workers), es).logs[t];
             |l.issued| == |l.got| && forall k :: 0 <= k < |l.execs| ==> l.execs[k].ret == world(l.execs[k].req)
    ensures var l := After(Init(workers), es).logs[t]; l.trace == SyncRun(prog(t), world, l.ops)
  {
    var l := After(Init(workers), es).logs[t];
    AsyncIsDirect(workers, es, prog, t);
    DirectIsSync(prog(t), world, l.got, l.ops);
  }
}
