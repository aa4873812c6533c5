/** The transfers of a byte channel read off the events of a run: their requests, histories and results. */
module ChannelEvents {
  import opened Actions
  import opened Scheduler
  import opened Transfers
  import opened ByteChannel

  /** What the event tells the handler: the reply of a system call, an expiry, or an error of libev. */
  function Reports(x: Transfer, c: Channel, e: NetEvent): seq<Seen> {
    match e
    case Call(_, _, _) => []
    case Enter(_) => if x.need == 0 then [NothingToDo] else []
    case SysCall(_, a) =>
      var r := ReplyTo(a, x.need, Room(x, c));
      [if r.n > 0 then Moved(r.n) else if r.n == 0 then Zeroed(r.errno) else Failed(r.errno)]
    case Abort(_, Timeout) => [Expired]
    case Abort(_, _) => [LoopError]
  }

  /** What the handlers of the latest transfer of one side were told, in order. */
  function HistoryIn(capacity: nat, es: seq<NetEvent>, reading: bool): seq<Seen>
    requires NetRun(capacity, es)
    decreases |es|
  {
    if es == [] then [] else
    var before, e := es[..|es| - 1], es[|es| - 1];
    var n := NetAfter(capacity, before);
    if e.reading != reading then HistoryIn(capacity, before, reading)
    else if e.Call? then []
    else HistoryIn(capacity, before, reading) + Reports(Last(Side(n, reading).xs), n.chan, e)
  }

  datatype Ask = Ask(buf: seq<Byte>, timeoutMs: int)

  /** The calls of one side, in order. */
  function AsksIn(es: seq<NetEvent>, reading: bool): seq<Ask> {
    if es == [] then [] else
    var e := es[|es| - 1];
    AsksIn(es[..|es| - 1], reading) + (if e.Call? && e.reading == reading then [Ask(e.buf, e.timeoutMs)] else [])
  }

  /** One transfer for each call, with its buffer and its timeout. */
  predicate OnePerAsk(xs: seq<Transfer>, asks: seq<Ask>) {
    |xs| == |asks| && forall i :: 0 <= i < |xs| ==> xs[i].orig == asks[i].buf && xs[i].timeoutMs == asks[i].timeoutMs
  }

  lemma ActReports(x: Transfer, c: Channel, e: NetEvent)
    requires !e.Call? && (e.SysCall? ==> x.need > 0) && (e.Abort? ==> !e.wake.Ready?)
    ensures var (x', _, _) := Act(x, c, e);
            x'.log == x.log + Reports(x, c, e) && x'.orig == x.orig && x'.timeoutMs == x.timeoutMs
  {
  }

  /** What an event does to the transfers of one side: nothing, one more, or a report to the latest. */
  predicate SideStep(xs: seq<Transfer>, xs': seq<Transfer>, c: Channel, e: NetEvent, reading: bool) {
    if e.reading != reading then xs' == xs
    else if e.Call? then |xs'| == |xs| + 1 && xs <= xs' && Fresh(Last(xs'), e)
    else
      && xs != [] && |xs'| == |xs| && xs'[..|xs| - 1] == xs[..|xs| - 1] && Last(xs').log == Last(xs).log + Reports(Last(xs), c, e)
      && Last(xs').orig == Last(xs).orig && Last(xs').timeoutMs == Last(xs).timeoutMs
  }

  predicate Fresh(x: Transfer, e: NetEvent)
    requires e.Call?
  {
    x.log == [] && x.orig == e.buf && x.timeoutMs == e.timeoutMs
  }

  lemma StepReports(n: Net, e: NetEvent, reading: bool)
    requires CanStep(n, e)
    ensures SideStep(Side(n, reading).xs, Side(NetStep(n, e), reading).xs, n.chan, e, reading)
  {
    if e.reading == reading && !e.Call? { ActReports(Last(Side(n, reading).xs), n.chan, e); }
  }

  lemma StillOnePerAsk(xs: seq<Transfer>, xs': seq<Transfer>, c: Channel, e: NetEvent, reading: bool, asks: seq<Ask>)
    requires OnePerAsk(xs, asks) && SideStep(xs, xs', c, e, reading)
    ensures OnePerAsk(xs', asks + (if e.Call? && e.reading == reading then [Ask(e.buf, e.timeoutMs)] else []))
  {
    if e.reading == reading {
      if e.Call? {
        assert forall i :: 0 <= i < |xs| ==> xs'[i] == xs[i];
      } else {
        assert forall i :: 0 <= i < |xs| - 1 ==> xs'[i] == xs'[..|xs| - 1][i] == xs[i];
      }
    }
  }

  lemma {:induction false} RunReports(capacity: nat, es: seq<NetEvent>, reading: bool)
    requires NetRun(capacity, es)
    ensures var xs := Side(NetAfter(capacity, es), reading).xs;
            && OnePerAsk(xs, AsksIn(es, reading))
            && HistoryIn(capacity, es, reading) == if xs == [] then [] else Last(xs).log
    decreases |es|
  {
    if es != [] {
      var before, e := es[..|es| - 1], es[|es| - 1];
      var n, n' := NetAfter(capacity, before), NetAfter(capacity, es);
      NetExtends(capacity, es);
      RunReports(capacity, before, reading);
      StepReports(n, e, reading);
      StillOnePerAsk(Side(n, reading).xs, Side(n', reading).xs, n.chan, e, reading, AsksIn(before, reading));
    }
  }

  /**
   Every transfer is one of the calls, in order. The latest of a side has ended exactly when what the
   system calls, libev and the timer reported in this run calls for it, and with that result.
  */
  lemma ResultsByEvents(capacity: nat, es: seq<NetEvent>, reading: bool)
    requires NetRun(capacity, es) && Side(NetAfter(capacity, es), reading).xs != []
    ensures var xs := Side(NetAfter(capacity, es), reading).xs;
            var x, verdict := Last(xs), Verdict(|Last(xs).buf|, HistoryIn(capacity, es, reading));
            && OnePerAsk(xs, AsksIn(es, reading))
            && (Ended(x) <==> verdict.Some?)
            && (verdict.Some? ==> x.ret == Ret(AsInt(verdict.value.val), verdict.value.err))
  {
    RunReports(capacity, es, reading);
    NetAlways(capacity, es);
    var xs := Side(NetAfter(capacity, es), reading).xs;
    assert XferOk(xs[|xs| - 1]);
  }

  /** What one side may do next: call, be woken or aborted, or have the system call of its loop answered in any way. */
  ghost predicate MayGoOn(n: Net, reading: bool) {
    var d := Side(n, reading);
    if d.xs == [] || Ended(Last(d.xs)) then forall buf, ms :: CanStep(n, NetEvent.Call(reading, buf, ms))
    else if d.inLoop then forall a :: CanStep(n, SysCall(reading, a))
    else
      && CanStep(n, Enter(reading)) && CanStep(n, Abort(reading, IoError))
      && (Last(d.xs).timeoutMs != 0 <==> CanStep(n, Abort(reading, Timeout)))
      && (Last(d.xs).timeoutMs != 0 <==> CanStep(n, Abort(reading, TimerError)))
  }

  /** An open transfer has its io watcher armed, and its timer if it has a timeout. */
  lemma OpenArmed(x: Transfer)
    requires XferOk(x) && !Ended(x)
    ensures x.io && (x.timer <==> x.timeoutMs != 0)
  {
  }

  predicate SideOpen(d: End) {
    d.xs != [] && !Ended(Last(d.xs)) ==> Last(d.xs).io && (Last(d.xs).timer <==> Last(d.xs).timeoutMs != 0)
  }

  lemma SideIsOpen(xs: seq<Transfer>, inLoop: bool, reading: bool, c: Channel)
    requires Chained(xs, reading, c)
    ensures SideOpen(End(xs, inLoop))
  {
    if xs != [] && !Ended(Last(xs)) {
      assert XferOk(xs[|xs| - 1]);
      OpenArmed(Last(xs));
    }
  }

  lemma GoesOnFrom(n: Net, reading: bool)
    requires LoopOk(Side(n, reading)) && SideOpen(Side(n, reading))
    ensures MayGoOn(n, reading)
  {
  }

  /**
   In every run neither side is ever stuck: an open transfer can be woken, and one with a timeout, and
   only such a one, can expire.
  */
  lemma NeverStuck(capacity: nat, es: seq<NetEvent>, reading: bool)
    requires NetRun(capacity, es)
    ensures MayGoOn(NetAfter(capacity, es), reading)
  {
    NetAlways(capacity, es);
    var n := NetAfter(capacity, es);
    SideIsOpen(n.reader.xs, n.reader.inLoop, true, n.chan);
    SideIsOpen(n.writer.xs, n.writer.inLoop, false, n.chan);
    GoesOnFrom(n, reading);
  }
}
