/** What the handlers and the callbacks do, request by request, and what that means in every run. */
module Handlers {
  import opened Actions
  import opened Scheduler
  import opened Invariant
  import opened Runs

  /** The error code kept beside a file, connection or accept result: errno after a failure, else 0. */
  function Errno(raw: Ret): int { if raw.val < 0 then raw.err else 0 }

  /** The record of t has its result and its done action, the request is executed, and worker w goes on at `next`. */
  predicate Served(s: State, s': State, w: nat, t: Id, next: Worker, done: Action, ret: Ret) {
    && Live(s, t) && w < |s.workers|
    && var k, l := s.tasks[t], s.logs[t];
       s' == s.(tasks := s.tasks[t := k.(action := done, ret := ret)],
                logs := s.logs[t := l.(execs := l.execs + [Done(k.args, ret)])],
                workers := s.workers[w := next])
  }

  /** The io watcher, the timer, or both are started in the loop of w; nothing is executed yet. */
  predicate Started(s: State, s': State, w: nat, t: Id, io: bool, timer: bool) {
    && Live(s, t) && w < |s.workers|
    && s' == s.(watch := s.watch[t := Watch(w, io, timer)], tasks := s.tasks[t := s.tasks[t].(place := Watched)],
                workers := s.workers[w := Returned(t, 1)])
  }

  /** do_task on worker w, from s to s'. */
  predicate DidTask(s: State, s': State, w: nat, t: Id, raw: Ret, immediate: bool)
    requires t in s.tasks
  {
    var timed := s.tasks[t].args.timeoutMs != 0;
    match s.tasks[t].action
    case DiskOpen => Served(s, s', w, t, Returned(t, 0), DiskOpenDone, Ret(raw.val, Errno(raw)))
    case DiskRead => Served(s, s', w, t, Returned(t, 0), DiskReadDone, Ret(raw.val, Errno(raw)))
    case DiskWrite => Served(s, s', w, t, Returned(t, 0), DiskWriteDone, Ret(raw.val, Errno(raw)))
    case BlockedConnect => Served(s, s', w, t, Returned(t, 0), BlockedConnectDone, Ret(raw.val, Errno(raw)))
    case BgRun => Served(s, s', w, t, Returned(t, 0), BgRunDone, Ret(raw.val, 0))
    case TimeoutConnect =>
      if immediate then Served(s, s', w, t, Notify(t, true), TimeoutConnectDone, Ret(raw.val, Errno(raw)))
      else Started(s, s', w, t, true, timed)
    case SockRead => Started(s, s', w, t, true, timed)
    case SockWrite => Started(s, s', w, t, true, timed)
    case TcpAccept => Started(s, s', w, t, true, false)
    case Msleep => Started(s, s', w, t, false, true)
    case _ => false
  }

  /** In every reachable state the task a worker took has one of these ten requests, and is served like this. */
  lemma TaskDone(s: State, w: nat, raw: Ret, immediate: bool)
    requires Inv(s) && w < |s.workers| && s.workers[w].Exec?
    ensures var t := s.workers[w].t;
            && t in s.tasks && Enabled(s, Work(w, raw, immediate))
            && DidTask(s, Step(s, Work(w, raw, immediate)), w, t, raw, immediate)
  {
    OneWorker(s, w);
  }

  /** A callback that ends the request of t, from s to s'. */
  predicate DidFire(s: State, s': State, w: nat, t: Id, raw: Ret)
    requires t in s.tasks
  {
    var stopped := s.(watch := s.watch - {t}, tasks := s.tasks[t := s.tasks[t].(place := AtWorker(w))]);
    match s.tasks[t].action
    case SockRead => Served(stopped, s', w, t, Notify(t, false), SockDone, raw)
    case SockWrite => Served(stopped, s', w, t, Notify(t, false), SockDone, raw)
    case TimeoutConnect => Served(stopped, s', w, t, Notify(t, false), TimeoutConnectDone, Ret(raw.val, Errno(raw)))
    case TcpAccept => Served(stopped, s', w, t, Notify(t, false), TcpAcceptDone, Ret(raw.val, Errno(raw)))
    case Msleep => Served(stopped, s', w, t, Notify(t, false), MsleepDone, Ret(0, 0))
    case _ => false
  }

  /** In every reachable state a watcher that fires belongs to one of these five requests, and ends it like this. */
  lemma CallbackDone(s: State, w: nat, t: Id, timer: bool, raw: Ret)
    requires Inv(s) && Enabled(s, Fire(w, t, timer, Some(raw)))
    ensures t in s.tasks && DidFire(s, Step(s, Fire(w, t, timer, Some(raw))), w, t, raw)
  {
    OneWatch(s, t);
    OneRecord(s, t);
  }

  // ----- the watchers -----

  /** The io watcher of t is armed unless it sleeps; its timer, if it sleeps or gave a timeout to a call that takes one. */
  predicate WatchersFit(s: State, t: Id)
    requires t in s.watch
  {
    && t in s.tasks
    && var a, k := s.tasks[t].action, s.tasks[t];
       && (a.SockRead? || a.SockWrite? || a.TimeoutConnect? || a.TcpAccept? || a.Msleep?)
       && (s.watch[t].io <==> !a.Msleep?)
       && (s.watch[t].timer <==> a.Msleep? || (!a.TcpAccept? && k.args.timeoutMs != 0))
       && s.watch[t].w < |s.workers|
  }

  /** In every state of every run. */
  lemma WatchersAlwaysFit(workers: nat, es: seq<Event>, t: Id)
    requires workers >= 1 && Possible(Init(workers), es) && t in After(Init(workers), es).watch
    ensures WatchersFit(After(Init(workers), es), t)
  {
    RunInv(workers, es);
    OneWatch(After(Init(workers), es), t);
  }
}
