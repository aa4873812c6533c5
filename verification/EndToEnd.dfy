/**
 The scheduler and a byte channel together: one coroutine reads from the channel, another writes
 to it, and the callbacks of their requests are the transfers. Other coroutines, and other requests
 of these two, go on in between.
*/
module EndToEnd {
  import opened Actions
  import opened Scheduler
  import opened Seqs
  import opened Invariant
  import opened Runs
  import opened Transfers
  import opened ByteChannel
  import Delivery

  datatype Joint = Joint(s: State, n: Net)

  /** The coroutines at the two ends. */
  datatype Ends = Ends(reader: Id, writer: Id)

  function At(ends: Ends, reading: bool): Id { if reading then ends.reader else ends.writer }

  datatype JointEvent =
    | Plain(e: Event)                                    // a step of the scheduler, no socket request involved
    | Starts(w: nat, buf: seq<Byte>)                     // worker w runs do_sock_read or do_sock_write
    | Inside(ne: NetEvent)                               // a piece of a callback that leaves the request open
    | Finishes(w: nat, timer: bool, ne: NetEvent)        // the piece of a callback that ends it

  predicate SocketIn(s: State, t: Id) { t in s.tasks && IsSocketTransfer(s.tasks[t].action) }

  /** The request of t is a socket transfer whose watchers are armed. */
  predicate Transferring(s: State, t: Id) { t in s.watch && SocketIn(s, t) }

  predicate StartsSocket(s: State, e: Event) {
    e.Work? && e.w < |s.workers| && s.workers[e.w].Exec? && SocketIn(s, s.workers[e.w].t)
  }

  /** Only the reader issues socket reads, and only the writer socket writes. */
  predicate InRole(s: State, e: Event, ends: Ends) {
    e.Choose? && e.op.Call? && IsSocketTransfer(e.op.req.action) ==> s.curr == At(ends, e.op.req.action.SockRead?)
  }

  function CallOf(s: State, w: nat, buf: seq<Byte>): NetEvent
    requires w < |s.workers| && s.workers[w].Exec? && SocketIn(s, s.workers[w].t)
  {
    var k := s.tasks[s.workers[w].t];
    NetEvent.Call(k.action.SockRead?, buf, k.args.timeoutMs)
  }

  const Anything := Ret(0, 0)

  predicate LastEnded(n: Net, reading: bool) {
    Side(n, reading).xs != [] && Ended(Last(Side(n, reading).xs))
  }

  /** The scheduler's event for the end of a transfer: the callback stores its result. */
  function Completion(n: Net, e: JointEvent, ends: Ends): Event
    requires e.Finishes? && LastEnded(n, e.ne.reading)
  {
    Fire(e.w, At(ends, e.ne.reading), e.timer, Some(Last(Side(n, e.ne.reading).xs).ret))
  }

  /** The timer's callback ends a transfer by a timeout, or by an error of the timer. */
  predicate ByTimer(ne: NetEvent) { ne.Abort? && (ne.wake.Timeout? || ne.wake.TimerError?) }

  predicate CanJoint(j: Joint, e: JointEvent, ends: Ends) {
    match e
    case Plain(se) =>
      && Allowed(j.s, se) && InRole(j.s, se, ends)
      && !StartsSocket(j.s, se) && !(se.Fire? && SocketIn(j.s, se.t))
    case Starts(w, buf) =>
      && StartsSocket(j.s, Work(w, Anything, false)) && CanStep(j.n, CallOf(j.s, w, buf))
    case Inside(ne) => !ne.Call? && CanStep(j.n, ne) && !LastEnded(NetStep(j.n, ne), ne.reading)
    case Finishes(w, timer, ne) =>
      && !ne.Call? && CanStep(j.n, ne) && LastEnded(NetStep(j.n, ne), ne.reading)
      && timer == ByTimer(ne) && Allowed(j.s, Completion(NetStep(j.n, ne), e, ends))
  }

  function JointStep(j: Joint, e: JointEvent, ends: Ends): Joint
    requires CanJoint(j, e, ends)
  {
    match e
    case Plain(se) => Joint(Step(j.s, se), j.n)
    case Starts(w, buf) => Joint(Step(j.s, Work(w, Anything, false)), NetStep(j.n, CallOf(j.s, w, buf)))
    case Inside(ne) => Joint(j.s, NetStep(j.n, ne))
    case Finishes(w, timer, ne) =>
      var n := NetStep(j.n, ne);
      Joint(Step(j.s, Completion(n, e, ends)), n)
  }

  predicate JointRun(workers: nat, capacity: nat, ends: Ends, es: seq<JointEvent>)
    decreases |es|, 0
  {
    es == [] ||
    (JointRun(workers, capacity, ends, es[..|es| - 1])
     && CanJoint(JointAfter(workers, capacity, ends, es[..|es| - 1]), es[|es| - 1], ends))
  }

  function JointAfter(workers: nat, capacity: nat, ends: Ends, es: seq<JointEvent>): Joint
    requires JointRun(workers, capacity, ends, es)
    decreases |es|, 1
  {
    if es == [] then Joint(Init(workers), NetInit(capacity))
    else JointStep(JointAfter(workers, capacity, ends, es[..|es| - 1]), es[|es| - 1], ends)
  }

  // ----- how the two fit -----

  /** The results of the socket requests among the executions, in order. */
  function SocketResults(execs: seq<Exec>): seq<Ret> {
    if execs == [] then [] else
    var x := execs[|execs| - 1];
    SocketResults(execs[..|execs| - 1]) + (if IsSocketTransfer(x.req.action) then [x.ret] else [])
  }

  /** The results of the transfers that have ended, in order. */
  function Results(xs: seq<Transfer>): seq<Ret> {
    if xs == [] then [] else Results(xs[..|xs| - 1]) + (if Ended(Last(xs)) then [Last(xs).ret] else [])
  }

  function ExecsOf(s: State, t: Id): seq<Exec> { if t < |s.logs| then s.logs[t].execs else [] }

  predicate Open1(d: End) { d.xs != [] && !Ended(Last(d.xs)) }

  /**
   At one end: the coroutine has a transfer open exactly while the watchers of its request are
   armed, and the results of its socket requests are those of its transfers.
  */
  predicate EndFits(s: State, d: End, t: Id, reading: bool) {
    && SocketResults(ExecsOf(s, t)) == Results(d.xs)
    && (Open1(d) <==> Transferring(s, t))
    && (Transferring(s, t) ==>
          s.tasks[t].action.SockRead? == reading && Last(d.xs).timeoutMs == s.tasks[t].args.timeoutMs)
  }

  /** A socket request in a record belongs to the coroutine at that end of the channel. */
  predicate RolesOk(s: State, ends: Ends) {
    forall t {:trigger SocketIn(s, t)} :: t in s.tasks && SocketIn(s, t) ==> t == At(ends, s.tasks[t].action.SockRead?)
  }

  ghost predicate Fits(j: Joint, ends: Ends) {
    && ends.reader != ends.writer && RolesOk(j.s, ends)
    && EndFits(j.s, j.n.reader, ends.reader, true) && EndFits(j.s, j.n.writer, ends.writer, false)
  }

  // ----- steps that start or end no transfer -----

  /** What the channel needs to know of t is as before. */
  predicate Undisturbed(s: State, s': State, t: Id) {
    && SocketResults(ExecsOf(s', t)) == SocketResults(ExecsOf(s, t))
    && (Transferring(s', t) <==> Transferring(s, t))
    && (Transferring(s, t) ==> s'.tasks[t].action == s.tasks[t].action && s'.tasks[t].args == s.tasks[t].args)
  }

  /** Records keep what they ask for, no watcher is armed or stopped, and no request is executed. */
  predicate AsksTheSame(s: State, s': State) {
    && s'.watch == s.watch && |s.logs| <= |s'.logs|
    && (forall t {:trigger s'.logs[t]} :: 0 <= t < |s'.logs| ==> s'.logs[t].execs == ExecsOf(s, t))
    && (forall t :: t in s.watch && t in s.tasks ==>
          t in s'.tasks && s'.tasks[t].action == s.tasks[t].action && s'.tasks[t].args == s.tasks[t].args)
    && (forall t :: t in s.watch ==> t in s.tasks)
  }

  lemma SameAsked(s: State, s': State, t: Id)
    requires AsksTheSame(s, s')
    ensures Undisturbed(s, s', t)
  {
  }

  /** No step of the manager thread changes what a record asks for; it frees only the running coroutine's. */
  lemma MainActions(s: State)
    requires ManagerOk(s) && MainEnabled(s)
    ensures forall t {:trigger t in MainStep(s).tasks} :: t in MainStep(s).tasks ==>
              t in s.tasks && MainStep(s).tasks[t].action == s.tasks[t].action && MainStep(s).tasks[t].args == s.tasks[t].args
    ensures forall t :: t in s.tasks && !s.tasks[t].place.AtManager? ==> t in MainStep(s).tasks
  {
  }

  lemma LoopLogs(s: State)
    requires ManagerOk(s) && MainEnabled(s) && !s.manager.Running?
    ensures var s' := MainStep(s);
            && s'.watch == s.watch && |s'.logs| == |s.logs|
            && (forall t {:trigger s'.logs[t]} :: 0 <= t < |s.logs| ==> s'.logs[t].execs == s.logs[t].execs)
  {
  }

  lemma MainLogs(s: State)
    requires ManagerOk(s) && MainEnabled(s)
    ensures var s' := MainStep(s);
            && s'.watch == s.watch && |s'.logs| == |s.logs|
            && (forall t {:trigger s'.logs[t]} :: 0 <= t < |s.logs| ==> s'.logs[t].execs == s.logs[t].execs)
  {
    if !s.manager.Running? { LoopLogs(s); }
  }

  lemma MainAsks(s: State)
    requires ManagerOk(s) && WatchesOk(s) && MainEnabled(s)
    ensures AsksTheSame(s, MainStep(s))
  {
    MainActions(s);
    MainLogs(s);
    forall t | t in s.watch ensures t in s.tasks && s.tasks[t].place.Watched? { assert WatchOk(s, t); }
  }

  lemma ChooseAsks(s: State, op: Op)
    requires ManagerOk(s) && WatchesOk(s) && SemsOk(s) && |s.logs| !in s.tasks && ChooseEnabled(s, op) && Disciplined(s, op)
    ensures AsksTheSame(s, ChooseStep(s, op))
  {
    forall t | t in s.watch ensures t in s.tasks && s.tasks[t].place.Watched? { assert WatchOk(s, t); }
    if op.SemPost? { assert SemOk(s, op.k); }
  }

  lemma BirthAsks(s: State, e: Event)
    requires WatchesOk(s) && |s.logs| !in s.tasks && Enabled(s, e) && (e.Begin? || e.BeginPush? || e.BeginPost? || e.Read?)
    ensures AsksTheSame(s, Step(s, e))
  {
    forall t | t in s.watch ensures t in s.tasks { assert WatchOk(s, t); }
  }

  /** A worker's steps but the handler itself. */
  lemma PhaseAsks(s: State, w: nat, raw: Ret, immediate: bool)
    requires WatchesOk(s) && WorkEnabled(s, w) && !s.workers[w].Exec?
    ensures AsksTheSame(s, WorkStep(s, w, raw, immediate))
  {
    forall t | t in s.watch ensures t in s.tasks { assert WatchOk(s, t); }
  }

  lemma ResultsOne(execs: seq<Exec>, x: Exec)
    ensures SocketResults(execs + [x]) == SocketResults(execs) + (if IsSocketTransfer(x.req.action) then [x.ret] else [])
  {
    assert (execs + [x])[..|execs|] == execs;
  }

  /** Executing a request of another kind. */
  lemma CompleteResults(s: State, w: nat, t: Id, raw: Ret, next: Worker, u: Id)
    requires Live(s, t) && w < |s.workers| && IsRequest(s.tasks[t].action) && !SocketIn(s, t)
    requires s.tasks[t].args.action == s.tasks[t].action
    ensures SocketResults(ExecsOf(Complete(s, w, t, raw, next), u)) == SocketResults(ExecsOf(s, u))
  {
    var k := s.tasks[t];
    if u == t { ResultsOne(s.logs[t].execs, Done(k.args, Outcome(k.action, raw))); }
  }

  lemma CompleteFrame(s: State, w: nat, t: Id, raw: Ret, next: Worker, u: Id)
    requires Live(s, t) && w < |s.workers| && IsRequest(s.tasks[t].action)
    ensures Complete(s, w, t, raw, next).watch == s.watch
    ensures u in Complete(s, w, t, raw, next).tasks <==> u in s.tasks
    ensures u != t && u in s.tasks ==> Complete(s, w, t, raw, next).tasks[u] == s.tasks[u]
  {
  }

  lemma CompleteAction(s: State, w: nat, t: Id, raw: Ret, next: Worker)
    requires Live(s, t) && w < |s.workers| && IsRequest(s.tasks[t].action)
    ensures !SocketIn(Complete(s, w, t, raw, next), t)
  {
    assert Complete(s, w, t, raw, next).tasks[t].action == DoneAction(s.tasks[t].action);
  }

  lemma CompleteAsks(s: State, w: nat, t: Id, raw: Ret, next: Worker, u: Id)
    requires Live(s, t) && w < |s.workers| && IsRequest(s.tasks[t].action) && !SocketIn(s, t)
    requires s.tasks[t].args.action == s.tasks[t].action
    ensures Undisturbed(s, Complete(s, w, t, raw, next), u)
  {
    CompleteResults(s, w, t, raw, next, u);
    CompleteFrame(s, w, t, raw, next, u);
    CompleteAction(s, w, t, raw, next);
  }

  lemma HandlerAsks(s: State, w: nat, t: Id, raw: Ret, immediate: bool, u: Id)
    requires w < |s.workers| && s.workers[w] == Exec(t) && WorkerOk(s, w) && !SocketIn(s, t) && t !in s.watch
    ensures Undisturbed(s, WorkStep(s, w, raw, immediate), u)
  {
    var k := s.tasks[t];
    if IsSynchronous(k.action) {
      CompleteAsks(s, w, t, raw, Returned(t, 0), u);
    } else if k.action.TimeoutConnect? && immediate {
      CompleteAsks(s, w, t, raw, Notify(t, true), u);
    }
  }

  lemma CallbackAsks(s: State, w: nat, t: Id, timer: bool, raw: Option<Ret>, u: Id)
    requires FireEnabled(s, w, t, timer, raw) && WatchOk(s, t) && RecordOk(s, t) && !SocketIn(s, t)
    ensures Undisturbed(s, FireStep(s, w, t, timer, raw), u)
  {
    if raw.Some? { CompleteAsks(s, w, t, raw.value, Notify(t, false), u); }
  }

  lemma PlainUndisturbed(s: State, e: Event, u: Id)
    requires Inv(s) && Allowed(s, e) && !StartsSocket(s, e) && !(e.Fire? && SocketIn(s, e.t))
    ensures Undisturbed(s, Step(s, e), u)
  {
    OpenEach(s);
    OneManager(s);
    FreshNumber(s);
    match e
    case Main => MainAsks(s); SameAsked(s, Step(s, e), u);
    case Choose(op) => ChooseAsks(s, op); SameAsked(s, Step(s, e), u);
    case Work(w, raw, immediate) =>
      if s.workers[w].Exec? {
        assert WorkerOk(s, w);
        NotWatched(s, s.workers[w].t);
        HandlerAsks(s, w, s.workers[w].t, raw, immediate, u);
      } else {
        PhaseAsks(s, w, raw, immediate);
        SameAsked(s, Step(s, e), u);
      }
    case Fire(w, t, timer, raw) =>
      assert WatchOk(s, t) && RecordOk(s, t);
      CallbackAsks(s, w, t, timer, raw, u);
    case _ => BirthAsks(s, e); SameAsked(s, Step(s, e), u);
  }

  // ----- roles -----

  /** No socket request comes into a record but by the choice of its coroutine. */
  predicate NoNewSocket(s: State, s': State) {
    forall t {:trigger SocketIn(s', t)} :: t in s'.tasks && SocketIn(s', t) ==>
      SocketIn(s, t) && s'.tasks[t].action == s.tasks[t].action
  }

  lemma MainRoles(s: State)
    requires ManagerOk(s) && MainEnabled(s)
    ensures NoNewSocket(s, MainStep(s))
  {
  }

  lemma WorkRoles(s: State, w: nat, raw: Ret, immediate: bool)
    requires WorkEnabled(s, w)
    ensures NoNewSocket(s, WorkStep(s, w, raw, immediate))
  {
  }

  lemma FireRoles(s: State, w: nat, t: Id, timer: bool, raw: Option<Ret>)
    requires FireEnabled(s, w, t, timer, raw)
    ensures NoNewSocket(s, FireStep(s, w, t, timer, raw))
  {
  }

  lemma ChooseRoles(s: State, op: Op, ends: Ends)
    requires RolesOk(s, ends) && ManagerOk(s) && ChooseEnabled(s, op) && InRole(s, Choose(op), ends)
    ensures RolesOk(ChooseStep(s, op), ends)
  {
    var s' := ChooseStep(s, op);
    forall t | t in s'.tasks && SocketIn(s', t) ensures t == At(ends, s'.tasks[t].action.SockRead?) {
      if t != s.curr || !op.Call? { assert SocketIn(s, t); }
    }
  }

  lemma RolesKept(s: State, e: Event, ends: Ends)
    requires Inv(s) && RolesOk(s, ends) && Allowed(s, e) && InRole(s, e, ends)
    ensures RolesOk(Step(s, e), ends)
  {
    match e
    case Main => OneManager(s); MainRoles(s);
    case Choose(op) => OneManager(s); ChooseRoles(s, op, ends);
    case Work(w, raw, immediate) => WorkRoles(s, w, raw, immediate);
    case Fire(w, t, timer, raw) => FireRoles(s, w, t, timer, raw);
    case _ => assert NoNewSocket(s, Step(s, e));
  }

  // ----- a transfer starts -----

  lemma ResultsOneMore(xs: seq<Transfer>, x: Transfer)
    ensures Results(xs + [x]) == Results(xs) + (if Ended(x) then [x.ret] else [])
  {
    assert (xs + [x])[..|xs|] == xs;
  }

  /** do_sock_read and do_sock_write arm the watchers of their own record, and of no other. */
  lemma StartArms(s: State, w: nat, t: Id, u: Id)
    requires w < |s.workers| && s.workers[w] == Exec(t) && WorkerOk(s, w) && SocketIn(s, t)
    ensures var s' := Step(s, Work(w, Anything, false));
            && ExecsOf(s', u) == ExecsOf(s, u)
            && (u == t ==> Transferring(s', t) && s'.tasks[t].action == s.tasks[t].action && s'.tasks[t].args == s.tasks[t].args)
            && (u != t ==> Undisturbed(s, s', u))
  {
  }

  /** The end of the channel at which a transfer starts. */
  lemma StartEndFits(s: State, d: End, w: nat, t: Id, x: Transfer, reading: bool)
    requires w < |s.workers| && s.workers[w] == Exec(t) && WorkerOk(s, w) && SocketIn(s, t) && t !in s.watch
    requires EndFits(s, d, t, reading) && s.tasks[t].action.SockRead? == reading
    requires !Ended(x) && x.timeoutMs == s.tasks[t].args.timeoutMs
    ensures EndFits(Step(s, Work(w, Anything, false)), End(d.xs + [x], false), t, reading)
  {
    StartArms(s, w, t, t);
    ResultsOneMore(d.xs, x);
  }

  lemma OtherEndFits(s: State, s': State, d: End, u: Id, reading: bool)
    requires EndFits(s, d, u, reading) && Undisturbed(s, s', u)
    ensures EndFits(s', d, u, reading)
  {
  }

  lemma StartFits(j: Joint, w: nat, buf: seq<Byte>, ends: Ends)
    requires Inv(j.s) && NetInv(j.n) && Fits(j, ends) && CanJoint(j, Starts(w, buf), ends)
    ensures Fits(JointStep(j, Starts(w, buf), ends), ends)
  {
    var s, t := j.s, j.s.workers[w].t;
    var k, e := s.tasks[t], Work(w, Anything, false);
    var reading := k.action.SockRead?;
    OneWorker(s, w);
    OpenEach(s);
    NotWatched(s, t);
    RolesKept(s, e, ends);
    StartEndFits(s, Side(j.n, reading), w, t, Start(reading, buf, k.args.timeoutMs, j.n.chan), reading);
    StartArms(s, w, t, At(ends, !reading));
    OtherEndFits(s, Step(s, e), Side(j.n, !reading), At(ends, !reading), !reading);
  }

  /** The coroutine of a socket request that is about to be run has no other transfer open. */
  lemma StartNotBlocked(j: Joint, w: nat, buf: seq<Byte>, ends: Ends)
    requires Inv(j.s) && NetInv(j.n) && Fits(j, ends) && StartsSocket(j.s, Work(w, Anything, false))
    ensures CanJoint(j, Starts(w, buf), ends)
  {
    var t := j.s.workers[w].t;
    OneWorker(j.s, w);
    OpenEach(j.s);
    NotWatched(j.s, t);
  }

  // ----- a callback goes on, or ends the transfer -----

  /** A piece of a callback works on an open transfer; only an armed timer can time out. */
  lemma PieceOpen(n: Net, ne: NetEvent)
    requires NetInv(n) && CanStep(n, ne) && !ne.Call?
    ensures Open1(Side(n, ne.reading)) && (ByTimer(ne) ==> Last(Side(n, ne.reading).xs).timeoutMs != 0)
  {
    var d := Side(n, ne.reading);
    assert XferOk(d.xs[|d.xs| - 1]);
  }

  lemma PieceActs(n: Net, ne: NetEvent)
    requires NetInv(n) && CanStep(n, ne) && !ne.Call?
    ensures var d := Side(n, ne.reading);
            var (x', c', stays) := Act(Last(d.xs), n.chan, ne);
            && x'.timeoutMs == Last(d.xs).timeoutMs && (Ended(x') ==> Delivered(x'.ret) == x'.ret)
            && Side(NetStep(n, ne), ne.reading) == WithLast(d, x', stays)
            && Side(NetStep(n, ne), !ne.reading) == Side(n, !ne.reading)
  {
    var d := Side(n, ne.reading);
    var x := Last(d.xs);
    PieceOpen(n, ne);
    assert XferOk(d.xs[|d.xs| - 1]) && AtEnd(x, n.chan);
    ActOk(x, n.chan, ne);
    var (x', _, _) := Act(x, n.chan, ne);
    if Ended(x') { IntHolds(x'); }
  }

  /** What a piece of a callback does to its end of the channel. */
  lemma PieceShape(n: Net, ne: NetEvent)
    requires NetInv(n) && CanStep(n, ne) && !ne.Call?
    ensures var d, d' := Side(n, ne.reading), Side(NetStep(n, ne), ne.reading);
            && Open1(d) && d'.xs != [] && Last(d'.xs).timeoutMs == Last(d.xs).timeoutMs
            && Results(d'.xs) == Results(d.xs) + (if Ended(Last(d'.xs)) then [Last(d'.xs).ret] else [])
            && Side(NetStep(n, ne), !ne.reading) == Side(n, !ne.reading)
    ensures ByTimer(ne) ==> Last(Side(n, ne.reading).xs).timeoutMs != 0
    ensures LastEnded(NetStep(n, ne), ne.reading) ==>
              var r := Last(Side(NetStep(n, ne), ne.reading).xs).ret; Delivered(r) == r
  {
    var d := Side(n, ne.reading);
    PieceOpen(n, ne);
    PieceActs(n, ne);
    var (x', _, _) := Act(Last(d.xs), n.chan, ne);
    ResultsOneMore(d.xs[..|d.xs| - 1], x');
  }

  lemma InsideFits(j: Joint, ne: NetEvent, ends: Ends)
    requires NetInv(j.n) && Fits(j, ends) && CanJoint(j, Inside(ne), ends)
    ensures Fits(JointStep(j, Inside(ne), ends), ends)
  {
    PieceShape(j.n, ne);
  }

  /** The scheduler's side of the end of a transfer. */
  lemma FinishStores(s: State, w: nat, t: Id, timer: bool, r: Ret, u: Id)
    requires FireEnabled(s, w, t, timer, Some(r)) && WatchOk(s, t) && RecordOk(s, t) && SocketIn(s, t)
    ensures var s' := FireStep(s, w, t, timer, Some(r));
            && (u == t ==> !Transferring(s', t) && SocketResults(ExecsOf(s', t)) == SocketResults(ExecsOf(s, t)) + [r])
            && (u != t ==> Undisturbed(s, s', u))
  {
    var k := s.tasks[t];
    ResultsOne(s.logs[t].execs, Done(k.args, Outcome(k.action, r)));
  }

  lemma FinishFits(j: Joint, e: JointEvent, ends: Ends)
    requires Inv(j.s) && NetInv(j.n) && Fits(j, ends) && e.Finishes? && CanJoint(j, e, ends)
    ensures Fits(JointStep(j, e, ends), ends)
  {
    var t := At(ends, e.ne.reading);
    PieceShape(j.n, e.ne);
    var r := Last(Side(NetStep(j.n, e.ne), e.ne.reading).xs).ret;
    OneWatch(j.s, t);
    OneRecord(j.s, t);
    RolesKept(j.s, Fire(e.w, t, e.timer, Some(r)), ends);
    FinishStores(j.s, e.w, t, e.timer, r, ends.reader);
    FinishStores(j.s, e.w, t, e.timer, r, ends.writer);
  }

  lemma FireReady(s: State, w: nat, t: Id, timer: bool, r: Ret)
    requires t in s.watch && WatchOk(s, t) && SocketIn(s, t) && s.watch[t].w == w && w < |s.workers| && s.workers[w].Idle?
    requires timer ==> s.tasks[t].args.timeoutMs != 0
    ensures FireEnabled(s, w, t, timer, Some(r))
  {
  }

  /** At the end of the channel: the callback that a piece stands for is enabled. */
  lemma EndReady(s: State, n: Net, ne: NetEvent, t: Id, w: nat, r: Ret)
    requires NetInv(n) && !ne.Call? && CanStep(n, ne) && EndFits(s, Side(n, ne.reading), t, ne.reading)
    requires WatchesOk(s) && t in s.watch && s.watch[t].w == w && w < |s.workers| && s.workers[w].Idle?
    ensures FireEnabled(s, w, t, ByTimer(ne), Some(r))
  {
    PieceOpen(n, ne);
    assert WatchOk(s, t);
    FireReady(s, w, t, ByTimer(ne), r);
  }

  /** When a transfer can end, the scheduler's callback for it is enabled, as soon as its worker is in its loop. */
  lemma FinishNotBlocked(j: Joint, w: nat, ne: NetEvent, ends: Ends)
    requires Inv(j.s) && NetInv(j.n) && Fits(j, ends) && !ne.Call? && CanStep(j.n, ne)
    requires LastEnded(NetStep(j.n, ne), ne.reading)
    requires var t := At(ends, ne.reading);
             t in j.s.watch && j.s.watch[t].w == w && w < |j.s.workers| && j.s.workers[w].Idle?
    ensures Allowed(j.s, Completion(NetStep(j.n, ne), Finishes(w, ByTimer(ne), ne), ends))
    ensures CanJoint(j, Finishes(w, ByTimer(ne), ne), ends)
  {
    OpenEach(j.s);
    EndReady(j.s, j.n, ne, At(ends, ne.reading), w, Last(Side(NetStep(j.n, ne), ne.reading).xs).ret);
  }

  // ----- whole runs -----

  /** A run of the two together is a run of each. */
  ghost predicate Projects(workers: nat, capacity: nat, j: Joint, es: seq<Event>, ns: seq<NetEvent>) {
    && Possible(Init(workers), es) && After(Init(workers), es) == j.s
    && NetRun(capacity, ns) && NetAfter(capacity, ns) == j.n
  }

  lemma OneMore(workers: nat, capacity: nat, j: Joint, es: seq<Event>, ns: seq<NetEvent>, e: Event)
    requires Projects(workers, capacity, j, es, ns) && Allowed(j.s, e)
    ensures Projects(workers, capacity, Joint(Step(j.s, e), j.n), es + [e], ns)
  {
    assert (es + [e])[..|es|] == es;
  }

  lemma OneMoreNet(workers: nat, capacity: nat, j: Joint, es: seq<Event>, ns: seq<NetEvent>, ne: NetEvent)
    requires Projects(workers, capacity, j, es, ns) && CanStep(j.n, ne)
    ensures Projects(workers, capacity, Joint(j.s, NetStep(j.n, ne)), es, ns + [ne])
  {
    assert (ns + [ne])[..|ns|] == ns;
  }

  lemma ProjectStep(workers: nat, capacity: nat, j: Joint, e: JointEvent, ends: Ends, es: seq<Event>, ns: seq<NetEvent>)
      returns (es': seq<Event>, ns': seq<NetEvent>)
    requires Projects(workers, capacity, j, es, ns) && CanJoint(j, e, ends)
    ensures Projects(workers, capacity, JointStep(j, e, ends), es', ns')
  {
    es', ns' := es, ns;
    match e
    case Plain(se) =>
      OneMore(workers, capacity, j, es, ns, se);
      es' := es + [se];
    case Starts(w, buf) =>
      var se, ne := Work(w, Anything, false), CallOf(j.s, w, buf);
      OneMore(workers, capacity, j, es, ns, se);
      OneMoreNet(workers, capacity, Joint(Step(j.s, se), j.n), es + [se], ns, ne);
      es', ns' := es + [se], ns + [ne];
    case Inside(ne) =>
      OneMoreNet(workers, capacity, j, es, ns, ne);
      ns' := ns + [ne];
    case Finishes(w, timer, ne) =>
      var n := NetStep(j.n, ne);
      var se := Completion(n, e, ends);
      OneMoreNet(workers, capacity, j, es, ns, ne);
      OneMore(workers, capacity, Joint(j.s, n), es, ns + [ne], se);
      es', ns' := es + [se], ns + [ne];
  }

  lemma JointExtends(workers: nat, capacity: nat, ends: Ends, js: seq<JointEvent>)
    requires js != [] && JointRun(workers, capacity, ends, js)
    ensures var before, e := js[..|js| - 1], js[|js| - 1];
            && JointRun(workers, capacity, ends, before) && CanJoint(JointAfter(workers, capacity, ends, before), e, ends)
            && JointAfter(workers, capacity, ends, js) == JointStep(JointAfter(workers, capacity, ends, before), e, ends)
  {
  }

  lemma {:induction false} JointProjects(workers: nat, capacity: nat, ends: Ends, js: seq<JointEvent>)
      returns (es: seq<Event>, ns: seq<NetEvent>)
    requires JointRun(workers, capacity, ends, js)
    ensures Projects(workers, capacity, JointAfter(workers, capacity, ends, js), es, ns)
    decreases |js|
  {
    if js == [] {
      es, ns := [], [];
    } else {
      var before := js[..|js| - 1];
      JointExtends(workers, capacity, ends, js);
      es, ns := JointProjects(workers, capacity, ends, before);
      es, ns := ProjectStep(workers, capacity, JointAfter(workers, capacity, ends, before), js[|js| - 1], ends, es, ns);
    }
  }

  lemma StepFits(j: Joint, e: JointEvent, ends: Ends)
    requires Inv(j.s) && NetInv(j.n) && Fits(j, ends) && CanJoint(j, e, ends)
    ensures Fits(JointStep(j, e, ends), ends)
  {
    match e
    case Plain(se) =>
      RolesKept(j.s, se, ends);
      PlainUndisturbed(j.s, se, ends.reader);
      PlainUndisturbed(j.s, se, ends.writer);
    case Starts(w, buf) => StartFits(j, w, buf, ends);
    case Inside(ne) => InsideFits(j, ne, ends);
    case Finishes(_, _, _) => FinishFits(j, e, ends);
  }

  lemma JointOk(workers: nat, capacity: nat, ends: Ends, js: seq<JointEvent>)
    requires workers >= 1 && JointRun(workers, capacity, ends, js)
    ensures var j := JointAfter(workers, capacity, ends, js); Inv(j.s) && NetInv(j.n)
  {
    var es, ns := JointProjects(workers, capacity, ends, js);
    RunInv(workers, es);
    NetAlways(capacity, ns);
  }

  lemma {:induction false} JointFits(workers: nat, capacity: nat, ends: Ends, js: seq<JointEvent>)
    requires workers >= 1 && ends.reader != ends.writer && JointRun(workers, capacity, ends, js)
    ensures Fits(JointAfter(workers, capacity, ends, js), ends)
    decreases |js|
  {
    if js != [] {
      var before := js[..|js| - 1];
      JointExtends(workers, capacity, ends, js);
      JointFits(workers, capacity, ends, before);
      JointOk(workers, capacity, ends, before);
      StepFits(JointAfter(workers, capacity, ends, before), js[|js| - 1], ends);
    }
  }

  // ----- what the coroutines are told -----

  /** The results that a coroutine has read of its socket requests. */
  function SocketGot(l: Log, k: nat): seq<Ret>
    requires k <= |l.got| <= |l.execs|
  {
    if k == 0 then [] else
    SocketGot(l, k - 1) + (if IsSocketTransfer(l.execs[k - 1].req.action) then [l.got[k - 1]] else [])
  }

  /** No result changes on its way through int. */
  predicate Narrow(rs: seq<Ret>) { forall i :: 0 <= i < |rs| ==> Delivered(rs[i]) == rs[i] }

  lemma {:induction false} PrefixResults(execs: seq<Exec>, k: nat)
    requires k <= |execs|
    ensures SocketResults(execs[..k]) <= SocketResults(execs)
    ensures |SocketResults(execs)| <= |SocketResults(execs[..k])| + |execs| - k
  {
    if k < |execs| {
      PrefixResults(execs[..|execs| - 1], k);
      assert execs[..|execs| - 1][..k] == execs[..k];
    } else {
      assert execs[..k] == execs;
    }
  }

  lemma {:induction false} GotAreResults(l: Log, k: nat)
    requires k <= |l.got| <= |l.execs| && Narrow(SocketResults(l.execs))
    requires forall i :: 0 <= i < |l.got| ==> l.got[i] == Delivered(l.execs[i].ret)
    ensures SocketGot(l, k) == SocketResults(l.execs[..k])
  {
    if k > 0 {
      GotAreResults(l, k - 1);
      PrefixResults(l.execs, k);
      assert l.execs[..k][..k - 1] == l.execs[..k - 1];
      if IsSocketTransfer(l.execs[k - 1].req.action) {
        var rs := SocketResults(l.execs[..k]);
        assert rs[|rs| - 1] == l.execs[k - 1].ret && SocketResults(l.execs)[|rs| - 1] == l.execs[k - 1].ret;
      }
    }
  }

  lemma {:induction false} ResultsNarrow(xs: seq<Transfer>)
    requires forall i :: 0 <= i < |xs| ==> XferOk(xs[i])
    ensures Narrow(Results(xs))
  {
    if xs != [] {
      ResultsNarrow(xs[..|xs| - 1]);
      assert XferOk(xs[|xs| - 1]);
      if Ended(Last(xs)) { IntHolds(Last(xs)); }
    }
  }

  /** Of the results of its transfers a coroutine has read all but at most the last, unchanged and in order. */
  predicate ToldOf(s: State, t: Id, xs: seq<Transfer>) {
    if t < |s.logs| then
      var l := s.logs[t];
      && |l.got| <= |l.execs|
      && SocketGot(l, |l.got|) <= Results(xs) && |Results(xs)| <= |SocketGot(l, |l.got|)| + 1
    else Results(xs) == []
  }

  lemma TellsOf(s: State, d: End, t: Id, reading: bool, c: Channel)
    requires Inv(s) && EndFits(s, d, t, reading) && Chained(d.xs, reading, c)
    ensures ToldOf(s, t, d.xs)
  {
    if t < |s.logs| {
      var l := s.logs[t];
      Delivery.LogsDelivered(s, t);
      ResultsNarrow(d.xs);
      GotAreResults(l, |l.got|);
      PrefixResults(l.execs, |l.got|);
    }
  }

  /**
   From end to end, for any number of workers and any interleaving of the scheduler with the pieces
   of the callbacks: each of the two coroutines is told the results of its transfers, in order and
   unchanged; and the bytes in the reader's buffers, followed by those in flight, are the bytes
   taken from the writer's buffers.
  */
  lemma WritesArrive(workers: nat, capacity: nat, ends: Ends, js: seq<JointEvent>)
    requires workers >= 1 && ends.reader != ends.writer && JointRun(workers, capacity, ends, js)
    ensures var j := JointAfter(workers, capacity, ends, js);
            && ToldOf(j.s, ends.reader, j.n.reader.xs) && ToldOf(j.s, ends.writer, j.n.writer.xs)
            && Bytes(j.n.reader.xs) + InFlight(j.n.chan) == Bytes(j.n.writer.xs)
  {
    var j := JointAfter(workers, capacity, ends, js);
    JointOk(workers, capacity, ends, js);
    JointFits(workers, capacity, ends, js);
    TellsOf(j.s, j.n.reader, ends.reader, true, j.n.chan);
    TellsOf(j.s, j.n.writer, ends.writer, false, j.n.chan);
    var _, ns := JointProjects(workers, capacity, ends, js);
    WriteThenRead(capacity, ns);
  }
}
