/**
 A writing and a reading coroutine on one byte channel: any number of transfers on each side, one
 at a time. An event is a call, a watcher that fires, or one system call of a callback's loop; the
 callbacks of the two sides may run on different workers and overlap in any way.
*/
module ByteChannel {
  import opened Actions
  import opened Scheduler
  import opened Transfers

  /** One side: its transfers in order, and whether a callback of the last one is in its loop. */
  datatype End = End(xs: seq<Transfer>, inLoop: bool)

  datatype Net = Net(chan: Channel, reader: End, writer: End)

  datatype NetEvent =
    | Call(reading: bool, buf: seq<Byte>, timeoutMs: int)  // the coroutine of that side starts a transfer
    | Enter(reading: bool)                                 // its io watcher reports the socket ready
    | SysCall(reading: bool, answer: Answer)               // one read or write from the label `go`
    | Abort(reading: bool, wake: Wake)                     // timeout, or EV_ERROR of either watcher

  function Side(n: Net, reading: bool): End { if reading then n.reader else n.writer }

  function Last(xs: seq<Transfer>): Transfer
    requires xs != []
  {
    xs[|xs| - 1]
  }

  /** The coroutine of a side is suspended until its transfer is done. */
  predicate Idle(d: End) { d.xs == [] || Ended(Last(d.xs)) }

  /** While a callback is in its loop, its worker runs no other callback of the same task. */
  predicate CanStep(n: Net, e: NetEvent) {
    var d := Side(n, e.reading);
    match e
    case Call(_, _, _) => Idle(d)
    case Enter(_) => d.xs != [] && !d.inLoop && Last(d.xs).io
    case SysCall(_, _) => d.xs != [] && d.inLoop && Last(d.xs).need > 0
    case Abort(_, w) => d.xs != [] && !d.inLoop && !w.Ready? && CanWake(Last(d.xs), w)
  }

  function WithLast(d: End, x: Transfer, inLoop: bool): End
    requires d.xs != []
  {
    End(d.xs[..|d.xs| - 1] + [x], inLoop)
  }

  /** The last transfer of the acting side, the channel, and whether the callback stays in its loop. */
  function Act(x: Transfer, c: Channel, e: NetEvent): (Transfer, Channel, bool)
    requires e.SysCall? ==> x.need > 0
  {
    match e
    case Enter(_) => if x.need == 0 then (OnWake(x, c, Ready([])).x, c, false) else (x, c, true)
    case SysCall(_, a) => (Pass(x, c, a).x, Pass(x, c, a).c, GoesOn(x, c, a))
    case Abort(_, w) => (OnWake(x, c, w).x, OnWake(x, c, w).c, false)
    case Call(_, _, _) => (x, c, false)
  }

  function NetStep(n: Net, e: NetEvent): Net
    requires CanStep(n, e)
  {
    var d := Side(n, e.reading);
    var (d', c') := if e.Call? then (End(d.xs + [Start(e.reading, e.buf, e.timeoutMs, n.chan)], false), n.chan)
                    else var (x, c, stays) := Act(Last(d.xs), n.chan, e); (WithLast(d, x, stays), c);
    if e.reading then Net(c', d', n.writer) else Net(c', n.reader, d')
  }

  predicate NetRun(capacity: nat, es: seq<NetEvent>)
    decreases |es|, 0
  {
    es == [] || (NetRun(capacity, es[..|es| - 1]) && CanStep(NetAfter(capacity, es[..|es| - 1]), es[|es| - 1]))
  }

  function NetInit(capacity: nat): Net { Net(Chan([], 0, capacity), End([], false), End([], false)) }

  function NetAfter(capacity: nat, es: seq<NetEvent>): Net
    requires NetRun(capacity, es)
    decreases |es|, 1
  {
    if es == [] then NetInit(capacity) else NetStep(NetAfter(capacity, es[..|es| - 1]), es[|es| - 1])
  }

  // ----- the invariant -----

  /** The transfers of one side follow each other along the stream, and all but the last are done. */
  predicate Chained(xs: seq<Transfer>, reading: bool, c: Channel) {
    && (forall i :: 0 <= i < |xs| ==> XferOk(xs[i]) && xs[i].reading == reading && Placed(xs[i], c))
    && (forall i :: 0 <= i < |xs| - 1 ==> Ended(xs[i]) && xs[i + 1].start == xs[i].start + xs[i].have)
    && (xs != [] ==> xs[0].start == 0)
    && Position(reading, c) == (if xs == [] then 0 else Last(xs).start + Last(xs).have)
  }

  /** A callback is in its loop only for a transfer with something left to move. */
  predicate LoopOk(d: End) { d.inLoop ==> d.xs != [] && !Ended(Last(d.xs)) && Last(d.xs).need > 0 }

  predicate NetInv(n: Net) {
    && Chained(n.reader.xs, true, n.chan) && LoopOk(n.reader)
    && Chained(n.writer.xs, false, n.chan) && LoopOk(n.writer)
  }

  lemma CallKeeps(c: Channel, xs: seq<Transfer>, reading: bool, buf: seq<Byte>, timeoutMs: int)
    requires Chained(xs, reading, c) && (xs == [] || Ended(Last(xs)))
    ensures Chained(xs + [Start(reading, buf, timeoutMs, c)], reading, c)
  {
    StartOk(reading, buf, timeoutMs, c);
    var x: Transfer := Start(reading, buf, timeoutMs, c);
    var xs' := xs + [x];
    forall i | 0 <= i < |xs'| ensures XferOk(xs'[i]) && xs'[i].reading == reading && Placed(xs'[i], c) {
      if i < |xs| { assert xs'[i] == xs[i]; } else { assert xs'[i] == x; }
    }
    forall i | 0 <= i < |xs'| - 1 ensures Ended(xs'[i]) && xs'[i + 1].start == xs'[i].start + xs'[i].have {
      assert xs'[i] == xs[i];
      if i < |xs| - 1 { assert xs'[i + 1] == xs[i + 1]; }
    }
  }

  /** The transfers of the side that did not act. */
  lemma OtherKeeps(xs: seq<Transfer>, reading: bool, c: Channel, c': Channel)
    requires Chained(xs, reading, c) && OnlyOwnEnd(!reading, c, c')
    ensures Chained(xs, reading, c')
  {
    forall i | 0 <= i < |xs| ensures XferOk(xs[i]) && xs[i].reading == reading && Placed(xs[i], c') {
      StillPlaced(xs[i], c, c');
    }
  }

  lemma LastReplaced(xs: seq<Transfer>, x': Transfer, reading: bool, c: Channel, c': Channel)
    requires Chained(xs, reading, c) && xs != [] && OnlyOwnEnd(reading, c, c')
    requires XferOk(x') && Same(Last(xs), x') && Placed(x', c') && AtEnd(x', c')
    ensures Chained(xs[..|xs| - 1] + [x'], reading, c')
  {
    var xs' := xs[..|xs| - 1] + [x'];
    forall i | 0 <= i < |xs'| ensures XferOk(xs'[i]) && xs'[i].reading == reading && Placed(xs'[i], c') {
      if i < |xs| - 1 {
        assert xs'[i] == xs[i];
        StillPlaced(xs[i], c, c');
      }
    }
    forall i | 0 <= i < |xs'| - 1 ensures Ended(xs'[i]) && xs'[i + 1].start == xs'[i].start + xs'[i].have {
      assert xs'[i] == xs[i] && xs'[i + 1].start == xs[i + 1].start;
    }
    assert Last(xs') == x';
  }

  /** What a callback does to its own transfer. */
  lemma ActOk(x: Transfer, c: Channel, e: NetEvent)
    requires XferOk(x) && Placed(x, c) && AtEnd(x, c) && !Ended(x)
    requires match e
             case Enter(_) => x.io
             case SysCall(_, _) => x.need > 0
             case Abort(_, w) => !w.Ready? && CanWake(x, w)
             case Call(_, _, _) => false
    ensures var (x', c', stays) := Act(x, c, e);
            XferOk(x') && Kept(x, c, Both(x', c')) && (stays ==> !Ended(x') && x'.need > 0)
  {
    match e
    case Enter(_) =>
      if x.need == 0 { WakeOk(x, c, Ready([])); StillKept(x, c, OnWake(x, c, Ready([])).x); } else { StillKept(x, c, x); }
    case SysCall(_, a) => PassOk(x, c, a); PassPlaced(x, c, a);
    case Abort(_, w) => WakeOk(x, c, w); StillKept(x, c, OnWake(x, c, w).x);
  }

  lemma ActKeeps(n: Net, e: NetEvent)
    requires NetInv(n) && CanStep(n, e) && !e.Call?
    ensures var d := Side(n, e.reading);
            var (x', c', stays) := Act(Last(d.xs), n.chan, e);
            && Chained(WithLast(d, x', stays).xs, e.reading, c') && LoopOk(WithLast(d, x', stays))
            && OnlyOwnEnd(e.reading, n.chan, c')
  {
    var c, d := n.chan, Side(n, e.reading);
    var x := Last(d.xs);
    assert XferOk(d.xs[|d.xs| - 1]) && AtEnd(x, c);
    ActOk(x, c, e);
    var (x', c', stays) := Act(x, c, e);
    LastReplaced(d.xs, x', e.reading, c, c');
  }

  lemma NetKeeps(n: Net, e: NetEvent)
    requires NetInv(n) && CanStep(n, e)
    ensures NetInv(NetStep(n, e)) && NetStep(n, e).chan.capacity == n.chan.capacity
  {
    var d := Side(n, e.reading);
    if e.Call? {
      CallKeeps(n.chan, d.xs, e.reading, e.buf, e.timeoutMs);
    } else {
      ActKeeps(n, e);
      var (_, c', _) := Act(Last(d.xs), n.chan, e);
      OtherKeeps(Side(n, !e.reading).xs, !e.reading, n.chan, c');
    }
  }

  lemma NetExtends(capacity: nat, es: seq<NetEvent>)
    requires es != [] && NetRun(capacity, es)
    ensures var before, e := es[..|es| - 1], es[|es| - 1];
            && NetRun(capacity, before) && CanStep(NetAfter(capacity, before), e)
            && NetAfter(capacity, es) == NetStep(NetAfter(capacity, before), e)
  {
  }

  lemma {:induction false} NetAlways(capacity: nat, es: seq<NetEvent>)
    requires NetRun(capacity, es)
    ensures NetInv(NetAfter(capacity, es)) && NetAfter(capacity, es).chan.capacity == capacity
    decreases |es|
  {
    if es != [] {
      NetExtends(capacity, es);
      NetAlways(capacity, es[..|es| - 1]);
      NetKeeps(NetAfter(capacity, es[..|es| - 1]), es[|es| - 1]);
    }
  }

  // ----- write then read -----

  /** The bytes that the transfers of one side moved, in order: the filled part of each buffer. */
  function Bytes(xs: seq<Transfer>): seq<Byte> {
    if xs == [] then [] else Bytes(xs[..|xs| - 1]) + Last(xs).buf[..Last(xs).have]
  }

  lemma {:induction false} BytesAreStream(xs: seq<Transfer>, c: Channel, k: nat)
    requires k <= |xs|
    requires forall i :: 0 <= i < |xs| ==> Placed(xs[i], c)
    requires forall i :: 0 <= i < |xs| - 1 ==> xs[i + 1].start == xs[i].start + xs[i].have
    requires xs != [] ==> xs[0].start == 0
    ensures var end := if k == 0 then 0 else xs[k - 1].start + xs[k - 1].have;
            end <= |c.sent| && Bytes(xs[..k]) == c.sent[..end]
  {
    if k > 0 {
      BytesAreStream(xs, c, k - 1);
      var x := xs[k - 1];
      assert xs[..k][..k - 1] == xs[..k - 1];
      assert Placed(x, c);
      assert c.sent[..x.start] + c.sent[x.start..x.start + x.have] == c.sent[..x.start + x.have];
    }
  }

  lemma SideBytes(xs: seq<Transfer>, reading: bool, c: Channel)
    requires Chained(xs, reading, c)
    ensures Bytes(xs) == c.sent[..Position(reading, c)]
  {
    BytesAreStream(xs, c, |xs|);
    assert xs[..|xs|] == xs;
  }

  lemma StreamSplits(c: Channel, received: seq<Byte>, taken: seq<Byte>)
    requires received == c.sent[..c.got] && taken == c.sent[..|c.sent|]
    ensures received + InFlight(c) == taken && |InFlight(c)| <= c.capacity
    ensures InFlight(c) == [] <==> received == taken
    ensures |received| == |taken| ==> received == taken
  {
    assert taken == c.sent;
  }

  /**
   For every interleaving of partial reads and writes over any number of calls: what the readers'
   buffers received, followed by what is in flight, is what was taken from the writers' buffers.
  */
  lemma WriteThenRead(capacity: nat, es: seq<NetEvent>)
    requires NetRun(capacity, es)
    ensures var n := NetAfter(capacity, es);
            var received, taken := Bytes(n.reader.xs), Bytes(n.writer.xs);
            && received + InFlight(n.chan) == taken && |InFlight(n.chan)| <= capacity
            && (InFlight(n.chan) == [] <==> received == taken)
            && (|received| == |taken| ==> received == taken)
  {
    NetAlways(capacity, es);
    var n := NetAfter(capacity, es);
    SideBytes(n.reader.xs, true, n.chan);
    SideBytes(n.writer.xs, false, n.chan);
    StreamSplits(n.chan, Bytes(n.reader.xs), Bytes(n.writer.xs));
  }

  /** The bytes that the results of the finished calls admit to. */
  function Reported(xs: seq<Transfer>): int {
    if xs == [] then 0 else
    var x := Last(xs);
    Reported(xs[..|xs| - 1]) + (if Ended(x) && x.ret.val > 0 then x.ret.val else 0)
  }

  /** A call whose result hides bytes it moved: it failed after moving some, or moved more than an int holds. */
  predicate Hides(x: Transfer) {
    x.log != [] && Ended(x) && (if Errored(x) then x.have > 0 else x.have > INT_MAX)
  }

  predicate NoneHides(xs: seq<Transfer>) { forall i :: 0 <= i < |xs| ==> !Hides(xs[i]) }

  lemma Admits(x: Transfer)
    requires XferOk(x) && Ended(x)
    ensures (if x.ret.val > 0 then x.ret.val else 0) <= x.have
    ensures (if x.ret.val > 0 then x.ret.val else 0) == x.have <==> !Hides(x)
  {
    ResultMeans(x);
  }

  lemma {:induction false} ReportedExact(xs: seq<Transfer>)
    requires forall i :: 0 <= i < |xs| ==> XferOk(xs[i]) && Ended(xs[i])
    ensures Reported(xs) <= |Bytes(xs)|
    ensures Reported(xs) == |Bytes(xs)| <==> NoneHides(xs)
  {
    if xs != [] {
      ReportedExact(xs[..|xs| - 1]);
      assert XferOk(xs[|xs| - 1]);
      Admits(Last(xs));
    }
  }

  /**
   The results add up to the bytes moved exactly when no call hides some; then equal totals on both
   sides mean equal data.
  */
  lemma TotalsTell(capacity: nat, es: seq<NetEvent>)
    requires NetRun(capacity, es) && Idle(NetAfter(capacity, es).reader) && Idle(NetAfter(capacity, es).writer)
    ensures var n := NetAfter(capacity, es);
            var ins, outs := n.reader.xs, n.writer.xs;
            && (Reported(ins) == |Bytes(ins)| <==> NoneHides(ins))
            && (Reported(outs) == |Bytes(outs)| <==> NoneHides(outs))
            && (NoneHides(ins) && NoneHides(outs) && Reported(ins) == Reported(outs) ==> Bytes(ins) == Bytes(outs))
  {
    NetAlways(capacity, es);
    var n := NetAfter(capacity, es);
    AllDone(n.reader.xs, true, n.chan);
    AllDone(n.writer.xs, false, n.chan);
    ReportedExact(n.reader.xs);
    ReportedExact(n.writer.xs);
    WriteThenRead(capacity, es);
  }

  lemma AllDone(xs: seq<Transfer>, reading: bool, c: Channel)
    requires Chained(xs, reading, c) && (xs == [] || Ended(Last(xs)))
    ensures forall i :: 0 <= i < |xs| ==> XferOk(xs[i]) && Ended(xs[i])
  {
    forall i | 0 <= i < |xs| ensures Ended(xs[i]) {
      if i == |xs| - 1 { assert xs[i] == Last(xs); }
    }
  }

  /**
   Every transfer of every run, finished or not: have_io + need_io is count, the buffer holds the
   bytes moved in stream order and is untouched beyond them, and the result, the watchers and the
   number of notifications are those that its history of system calls and expiries calls for.
  */
  lemma EveryTransfer(capacity: nat, es: seq<NetEvent>, reading: bool, i: nat)
    requires NetRun(capacity, es) && i < |Side(NetAfter(capacity, es), reading).xs|
    ensures var n := NetAfter(capacity, es);
            var x := Side(n, reading).xs[i];
            && x.have + x.need == |x.buf| && XferOk(x)
            && x.start == |Bytes(Side(n, reading).xs[..i])| && Placed(x, n.chan)
  {
    NetAlways(capacity, es);
    var n := NetAfter(capacity, es);
    BytesAreStream(Side(n, reading).xs, n.chan, i);
  }

  // ----- termination -----

  /** What the events of one side have left in the histories of its transfers. */
  function Effort(d: End): nat { EffortOf(d.xs) + (if d.inLoop then 1 else 0) }

  function EffortOf(xs: seq<Transfer>): nat {
    if xs == [] then 0 else EffortOf(xs[..|xs| - 1]) + 1 + 2 * |Last(xs).log|
  }

  /** Bytes asked for, useless calls, and a constant for each transfer. */
  function Budget(xs: seq<Transfer>): nat {
    if xs == [] then 0 else Budget(xs[..|xs| - 1]) + 3 + 2 * |Last(xs).buf| + 2 * Delays(Last(xs).log)
  }

  lemma ActLogs(x: Transfer, c: Channel, e: NetEvent)
    requires !e.Call? && (e.SysCall? ==> x.need > 0)
    ensures var (x', _, stays) := Act(x, c, e);
            if e.Enter? && x.need > 0 then x' == x && stays
            else |x'.log| == |x.log| + 1 || (e.Abort? && e.wake.Ready?)
  {
  }

  /** Every event leaves a mark. */
  lemma StepEffort(n: Net, e: NetEvent)
    requires CanStep(n, e) && LoopOk(n.reader) && LoopOk(n.writer)
    ensures var n' := NetStep(n, e); Effort(n'.reader) + Effort(n'.writer) > Effort(n.reader) + Effort(n.writer)
  {
    var d := Side(n, e.reading);
    if e.Call? {
      var x: Transfer := Start(e.reading, e.buf, e.timeoutMs, n.chan);
      assert (d.xs + [x])[..|d.xs|] == d.xs;
    } else {
      ActLogs(Last(d.xs), n.chan, e);
      var (x, _, _) := Act(Last(d.xs), n.chan, e);
      assert (d.xs[..|d.xs| - 1] + [x])[..|d.xs| - 1] == d.xs[..|d.xs| - 1];
    }
  }

  lemma {:induction false} RunEffort(capacity: nat, es: seq<NetEvent>)
    requires NetRun(capacity, es)
    ensures var n := NetAfter(capacity, es); |es| <= Effort(n.reader) + Effort(n.writer)
    decreases |es|
  {
    if es != [] {
      var before := es[..|es| - 1];
      NetExtends(capacity, es);
      RunEffort(capacity, before);
      NetAlways(capacity, before);
      StepEffort(NetAfter(capacity, before), es[|es| - 1]);
    }
  }

  lemma {:induction false} EffortBounded(xs: seq<Transfer>)
    requires forall i :: 0 <= i < |xs| ==> XferOk(xs[i])
    ensures EffortOf(xs) <= Budget(xs)
  {
    if xs != [] {
      EffortBounded(xs[..|xs| - 1]);
      assert XferOk(xs[|xs| - 1]);
      CallsBounded(Last(xs));
    }
  }

  /**
   Every run is finite, system calls of the retry loops included: it has at most two events for
   each byte asked for and each call that an interruption or a blocked channel made useless, and
   three for each transfer. need_io pays for the calls that move something.
  */
  lemma TransfersEnd(capacity: nat, es: seq<NetEvent>)
    requires NetRun(capacity, es)
    ensures var n := NetAfter(capacity, es); |es| <= Budget(n.reader.xs) + Budget(n.writer.xs) + 2
  {
    NetAlways(capacity, es);
    var n := NetAfter(capacity, es);
    RunEffort(capacity, es);
    EffortBounded(n.reader.xs);
    EffortBounded(n.writer.xs);
  }
}
