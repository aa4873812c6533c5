/** Every request is executed once and its result reaches the coroutine that issued it. */
module Delivery {
  import opened Actions
  import opened Scheduler
  import opened Seqs
  import opened Invariant
  import opened Runs

  /** The k-th result read is that of the k-th execution, which executed the k-th request. */
  predicate InOrder(l: Log) {
    && |l.got| <= l.notified <= |l.execs| <= |l.issued| <= |l.got| + 1
    && (forall k :: 0 <= k < |l.execs| ==> l.execs[k].req == l.issued[k])
    && (forall k :: 0 <= k < |l.got| ==> l.got[k] == Ret(AsInt(l.execs[k].ret.val), l.execs[k].ret.err))
  }

  /** For any state of the invariant. */
  lemma LogsDelivered(s: State, t: Id)
    requires Inv(s) && t < |s.logs|
    ensures InOrder(s.logs[t])
  {
    Open(s);
    assert LogOk(s, t);
    if t in s.tasks {
      assert RecordOk(s, t) && PlaceHolds(s, t);
      LogPhases(s, t);
    }
  }

  /**
   Result delivery, for any number of workers and any interleaving: of the requests of a
   coroutine, the k-th result it reads is that of the k-th execution, which executed its k-th
   request; at most one request is outstanding, and each is executed and announced at most once.
   */
  lemma ResultsDelivered(workers: nat, es: seq<Event>, t: Id)
    requires workers >= 1 && Possible(Init(workers), es) && t < |After(Init(workers), es).logs|
    ensures InOrder(After(Init(workers), es).logs[t])
  {
    RunInv(workers, es);
    LogsDelivered(After(Init(workers), es), t);
  }

  lemma LogPhases(s: State, t: Id)
    requires ManagerOk(s) && t in s.tasks && RecordOk(s, t) && PlaceHolds(s, t)
    ensures var l := s.logs[t]; |l.got| <= l.notified <= |l.execs| <= |l.issued| <= |l.got| + 1
  {
  }

  /** A value read equals the value computed exactly when that fits an int. */
  lemma ValueExact(workers: nat, es: seq<Event>, t: Id, k: nat)
    requires workers >= 1 && Possible(Init(workers), es) && t < |After(Init(workers), es).logs|
    requires k < |After(Init(workers), es).logs[t].got|
    ensures var l := After(Init(workers), es).logs[t];
            k < |l.execs| && (l.got[k] == l.execs[k].ret <==> -0x8000_0000 <= l.execs[k].ret.val < 0x8000_0000)
  {
    var l := After(Init(workers), es).logs[t];
    ResultsDelivered(workers, es, t);
    AsIntExact(l.execs[k].ret.val);
  }

  /** A callback that answers the request of t, not answered before, leaves none of its watchers armed. */
  ghost predicate AnswerIsLast(s: State, t: Id) {
    && Live(s, t) && |s.logs[t].execs| < |s.logs[t].issued|
    && (forall w, raw, timer :: FireEnabled(s, w, t, timer, Some(raw)) ==>
          var s' := FireStep(s, w, t, timer, Some(raw));
          && t !in s'.watch && |s'.logs[t].execs| == |s'.logs[t].issued|
          && s'.logs[t].notified == s.logs[t].notified)
  }

  /** For any state of the invariant. */
  lemma AnswersOnce(s: State, t: Id)
    requires Inv(s) && t in s.watch
    ensures AnswerIsLast(s, t)
  {
    Open(s);
    assert WatchOk(s, t) && RecordOk(s, t);
  }

  /**
   Once a request is executed none of its watchers is armed, so no callback can complete it
   again. That the worker leaves the record alone once it has announced it is Touching.HandsOff.
   */
  lemma CompletedOnce(workers: nat, es: seq<Event>, t: Id)
    requires workers >= 1 && Possible(Init(workers), es) && t in After(Init(workers), es).watch
    ensures AnswerIsLast(After(Init(workers), es), t)
  {
    RunInv(workers, es);
    AnswersOnce(After(Init(workers), es), t);
  }
}
