/**
 A socket transfer on values. The kernel is an oracle: it decides how each system call of a
 wake-up ends. The channel keeps every byte ever put into it and how many were taken out.
*/
module Transfers {
  import opened Actions
  import opened Scheduler

  type Byte = n: nat | n < 256

  const EINTR := 4
  const EAGAIN := 11
  const EWOULDBLOCK := 11
  const ENODEV := 19

  /** A bounded FIFO: sent[got..] is in flight. */
  datatype Chan = Chan(sent: seq<Byte>, got: nat, capacity: nat)

  predicate ChanOk(c: Chan) { c.got <= |c.sent| <= c.got + c.capacity }

  function InFlight(c: Chan): seq<Byte>
    requires ChanOk(c)
  {
    c.sent[c.got..]
  }

  /** How the kernel answers a read or write: with at most k bytes, with 0, or with -1. */
  datatype Answer = Upto(k: nat) | Zero(errno: int) | Fails(errno: int)

  datatype Reply = Reply(n: int, errno: int)

  /** A call for `len` bytes when `room` bytes can be moved at once. */
  function ReplyTo(a: Answer, len: nat, room: nat): Reply {
    match a
    case Upto(k) =>
      var m := if k < len then k else len;
      var n := if m < room then m else room;
      if n == 0 then Reply(-1, EAGAIN) else Reply(n, 0)
    case Zero(e) => Reply(0, e)
    case Fails(e) => Reply(-1, e)
  }

  /** What the handlers of one transfer were told: by system calls, by libev, by the timer. */
  datatype Seen = Moved(n: nat) | Zeroed(errno: int) | Failed(errno: int) | NothingToDo | LoopError | Expired

  /**
   The part of a task record that a transfer uses: direction, buffer (of `count` bytes), timeout,
   action, have_io, need_io, result, watchers; then the number of calls of
   coroutine_notify_manager, and for the statements below what the handlers saw, the buffer at
   the start, and the place in the channel's stream where the transfer began.
  */
  datatype Xfer = Xfer(reading: bool, buf: seq<Byte>, timeoutMs: int, action: Action, have: int, need: int,
                       ret: Ret, io: bool, timer: bool, notified: nat,
                       log: seq<Seen>, orig: seq<Byte>, start: nat)

  predicate Ended(x: Xfer) { x.action.SockDone? }

  function Position(reading: bool, c: Chan): nat { if reading then c.got else |c.sent| }

  /** do_sock_read and do_sock_write. */
  function Start(reading: bool, buf: seq<Byte>, timeoutMs: int, c: Chan): Xfer {
    Xfer(reading, buf, timeoutMs, if reading then SockRead else SockWrite, 0, |buf|, Ret(0, 0),
         true, timeoutMs != 0, 0, [], buf, Position(reading, c))
  }

  /** ev_sock_stop, whose result parameter is an int, then coroutine_notify_manager. */
  function Stop(x: Xfer, val: int, err: int): Xfer {
    x.(io := false, timer := x.timer && x.timeoutMs == 0, ret := Ret(AsInt(val), err), action := SockDone,
       notified := x.notified + 1)
  }

  function Saw(x: Xfer, e: Seen): Xfer { x.(log := x.log + [e]) }

  /** The bytes a call can move now: those in flight, or the free space. */
  function Room(x: Xfer, c: Chan): nat
    requires ChanOk(c)
  {
    if x.reading then |c.sent| - c.got else c.capacity - (|c.sent| - c.got)
  }

  predicate Shaped(x: Xfer) { 0 <= x.have && 0 <= x.need && x.have + x.need == |x.buf| }

  /** The buffer with `data` written from position `off` on. */
  function Filled(buf: seq<Byte>, off: nat, data: seq<Byte>): (r: seq<Byte>)
    requires off + |data| <= |buf|
    ensures |r| == |buf|
  {
    buf[..off] + data + buf[off + |data|..]
  }

  /** The kernel moves n bytes between the channel and the buffer at have_io. */
  function MoveBuf(x: Xfer, c: Chan, n: nat): (x': Xfer)
    requires ChanOk(c) && Shaped(x) && n <= x.need && n <= Room(x, c)
    ensures Shaped(x')
  {
    var b := if x.reading then Filled(x.buf, x.have, c.sent[c.got..c.got + n]) else x.buf;
    x.(buf := b, have := x.have + n, need := x.need - n, log := x.log + [Moved(n)])
  }

  function MoveChan(x: Xfer, c: Chan, n: nat): (c': Chan)
    requires ChanOk(c) && Shaped(x) && n <= x.need && n <= Room(x, c)
    ensures ChanOk(c')
  {
    if x.reading then c.(got := c.got + n) else c.(sent := c.sent + x.buf[x.have..x.have + n])
  }

  type Channel = c: Chan | ChanOk(c) witness Chan([], 0, 0)
  type Transfer = x: Xfer | Shaped(x) witness Xfer(true, [], 0, SockRead, 0, 0, Ret(0, 0), true, false, 0, [], [], 0)

  predicate Benign(errno: int) { errno == EAGAIN || errno == EWOULDBLOCK || errno == 0 }

  datatype Both = Both(x: Xfer, c: Chan)

  /** One pass from the label `go`: the next call, and what the handler makes of its reply. */
  function Pass(x: Xfer, c: Chan, a: Answer): (p: Both)
    requires ChanOk(c) && Shaped(x) && x.need > 0
    ensures Shaped(p.x) && ChanOk(p.c)
  {
    var r := ReplyTo(a, x.need, Room(x, c));
    if r.n == x.need then
      var x' := MoveBuf(x, c, r.n);
      Both(Stop(x', x'.have, 0), MoveChan(x, c, r.n))
    else if r.n > 0 then Both(MoveBuf(x, c, r.n), MoveChan(x, c, r.n))
    else if r.n == 0 then Both(Stop(Saw(x, Zeroed(r.errno)), if Benign(r.errno) then x.have else -1, r.errno), c)
    else if r.errno == EINTR || r.errno == EAGAIN then Both(Saw(x, Failed(r.errno)), c)
    else Both(Stop(Saw(x, Failed(r.errno)), -1, r.errno), c)
  }

  /** The reply sends the handler back to the label. */
  predicate GoesOn(x: Xfer, c: Chan, a: Answer)
    requires ChanOk(c) && Shaped(x)
  {
    var r := ReplyTo(a, x.need, Room(x, c));
    0 < r.n < x.need || (r.n < 0 && r.errno == EINTR)
  }

  /**
   One system call seen from the handler: what the other side of the channel has done since the
   last one (bytes it put in, bytes it took out), and how the kernel answers.
  */
  datatype Turn = Turn(arrived: seq<Byte>, left: nat, answer: Answer)

  /** The other side acts: it fills free space with what fits, or takes what is there. */
  function Meanwhile(reading: bool, c: Chan, t: Turn): (c': Chan)
    requires ChanOk(c)
    ensures ChanOk(c')
  {
    var flying := |c.sent| - c.got;
    if reading then
      var n := if |t.arrived| < c.capacity - flying then |t.arrived| else c.capacity - flying;
      c.(sent := c.sent + t.arrived[..n])
    else c.(got := c.got + (if t.left < flying then t.left else flying))
  }

  /** The loop of a ready callback; when the turns run out the call would block. */
  function Serve(x: Xfer, c: Chan, turns: seq<Turn>): (r: Both)
    requires ChanOk(c) && Shaped(x) && x.need > 0
    ensures Shaped(r.x) && ChanOk(r.c)
    decreases |turns|
  {
    if turns == [] then Both(Saw(x, Failed(EAGAIN)), c) else
    var c0 := Meanwhile(x.reading, c, turns[0]);
    var p := Pass(x, c0, turns[0].answer);
    if GoesOn(x, c0, turns[0].answer) then Serve(p.x, p.c, turns[1..]) else p
  }

  /** What libev may report for the watchers of a transfer. */
  datatype Wake = Ready(turns: seq<Turn>) | IoError | Timeout | TimerError

  predicate CanWake(x: Xfer, w: Wake) { if w.Ready? || w.IoError? then x.io else x.timer }

  function OnWake(x: Xfer, c: Chan, w: Wake): (r: Both)
    requires ChanOk(c) && Shaped(x)
    ensures Shaped(r.x) && ChanOk(r.c)
  {
    match w
    case Ready(turns) =>
      if x.need == 0 then Both(Stop(Saw(x, NothingToDo), x.have, 0), c) else Serve(x, c, turns)
    case Timeout =>
      var seen := Saw(x, Expired);
      Both(if x.have == 0 then Stop(seen, -1, EWOULDBLOCK) else Stop(seen, x.have, 0), c)
    case _ => Both(Stop(Saw(x, LoopError), -1, ENODEV), c)
  }

  // ----- the reference: the outcome of a transfer read off its flat history -----

  function Total(log: seq<Seen>): nat {
    if log == [] then 0 else Total(log[..|log| - 1]) + (if log[|log| - 1].Moved? then log[|log| - 1].n else 0)
  }

  /** The result that a history of a transfer of `count` bytes calls for, or None to go on. */
  function Verdict(count: nat, log: seq<Seen>): Option<Ret> {
    if log == [] then None else
    match log[|log| - 1]
    case Moved(_) => if Total(log) == count then Some(Ret(count, 0)) else None
    case Zeroed(e) => Some(if e == 0 || e == EAGAIN || e == EWOULDBLOCK then Ret(Total(log), e) else Ret(-1, e))
    case Failed(e) => if e == EINTR || e == EAGAIN then None else Some(Ret(-1, e))
    case NothingToDo => Some(Ret(0, 0))
    case LoopError => Some(Ret(-1, ENODEV))
    case Expired => Some(if Total(log) == 0 then Ret(-1, EWOULDBLOCK) else Ret(Total(log), 0))
  }

  /** No earlier part of the history called for a result, and no move was empty or beyond count. */
  predicate Ongoing(count: nat, log: seq<Seen>) {
    log == [] ||
    (var before, e := log[..|log| - 1], log[|log| - 1];
     && Ongoing(count, before) && Verdict(count, before).None? && Total(log) <= count
     && (e.Moved? ==> e.n > 0) && (e.NothingToDo? ==> count == 0))
  }

  /**
   The state of a transfer is the one its history calls for: it has completed exactly when the
   history says so, once, with that result narrowed to int, and with no watcher left armed.
  */
  predicate XferOk(x: Xfer) {
    && Shaped(x) && |x.orig| == |x.buf|
    && Ongoing(|x.buf|, x.log) && x.have == Total(x.log)
    && var v := Verdict(|x.buf|, x.log);
       && (Ended(x) <==> v.Some?)
       && (v.Some? ==> x.ret == Delivered(v.value))
       && x.notified == (if v.Some? then 1 else 0)
       && x.io == v.None? && x.timer == (v.None? && x.timeoutMs != 0)
       && (v.None? ==> x.action == (if x.reading then SockRead else SockWrite) && (x.need == 0 ==> |x.buf| == 0))
  }

  lemma Logged(count: nat, log: seq<Seen>, e: Seen)
    ensures Total(log + [e]) == Total(log) + (if e.Moved? then e.n else 0)
    ensures Ongoing(count, log + [e]) <==>
              && Ongoing(count, log) && Verdict(count, log).None? && Total(log + [e]) <= count
              && (e.Moved? ==> e.n > 0) && (e.NothingToDo? ==> count == 0)
  {
    assert (log + [e])[..|log|] == log;
  }

  // ----- the bytes -----

  /**
   The first have_io bytes of the buffer are those of the stream from the place where the
   transfer began; the rest is as it was, and a write does not change the buffer.
  */
  predicate Placed(x: Xfer, c: Chan) {
    && 0 <= x.have <= |x.buf| == |x.orig| && x.start + x.have <= |c.sent|
    && x.buf[..x.have] == c.sent[x.start..x.start + x.have]
    && x.buf[x.have..] == x.orig[x.have..]
    && (!x.reading ==> x.buf == x.orig)
  }

  /** The transfer accounts for the stream up to its own end of the channel. */
  predicate AtEnd(x: Xfer, c: Chan) { x.start + x.have == Position(x.reading, c) }

  /** The channel as a handler of one side leaves it: the other side's end is where it was. */
  predicate OnlyOwnEnd(reading: bool, c: Chan, c': Chan) {
    && ChanOk(c') && c'.capacity == c.capacity
    && (if reading then c'.sent == c.sent && c'.got >= c.got else c'.got == c.got && c.sent <= c'.sent)
  }

  /** The channel after both sides may have acted. */
  predicate Forward(c: Chan, c': Chan) {
    ChanOk(c') && c'.capacity == c.capacity && c.sent <= c'.sent && c.got <= c'.got
  }

  /** What no handler changes, and what is only ever extended. */
  predicate Same(x: Xfer, x': Xfer) {
    && x'.reading == x.reading && x'.start == x.start && x'.orig == x.orig && x'.timeoutMs == x.timeoutMs
    && |x'.buf| == |x.buf| && x.log <= x'.log && x.have <= x'.have
  }

  predicate Kept(x: Xfer, c: Chan, r: Both) {
    Placed(r.x, r.c) && AtEnd(r.x, r.c) && OnlyOwnEnd(x.reading, c, r.c) && Same(x, r.x)
  }

  lemma FilledSplits(buf: seq<Byte>, off: nat, data: seq<Byte>)
    requires off + |data| <= |buf|
    ensures Filled(buf, off, data)[..off + |data|] == buf[..off] + data
    ensures Filled(buf, off, data)[off + |data|..] == buf[off + |data|..]
  {
  }

  /** Two stretches of a sequence, end to end. */
  lemma Joins(s: seq<Byte>, i: nat, j: nat, k: nat)
    requires i <= j <= k <= |s|
    ensures s[i..k] == s[i..j] + s[j..k] && s[j..][k - j..] == s[k..]
  {
  }

  /** The buffer and the stream after a move: the next n bytes of the stream stand behind the first have_io. */
  predicate MovedTo(x: Xfer, c: Chan, n: nat, buf: seq<Byte>, sent: seq<Byte>)
    requires 0 <= x.have <= |x.buf| && x.have + n <= |x.buf|
  {
    && x.start + x.have + n <= |sent| && c.sent <= sent && |buf| == |x.buf|
    && buf[..x.have + n] == x.buf[..x.have] + sent[x.start + x.have..x.start + x.have + n]
    && buf[x.have + n..] == x.buf[x.have + n..]
  }

  lemma ReadBytes(x: Xfer, c: Chan, n: nat)
    requires ChanOk(c) && Shaped(x) && x.reading && n <= x.need && n <= Room(x, c) && AtEnd(x, c)
    ensures MovedTo(x, c, n, MoveBuf(x, c, n).buf, c.sent)
  {
    var data := c.sent[c.got..c.got + n];
    assert MoveBuf(x, c, n).buf == Filled(x.buf, x.have, data);
    FilledSplits(x.buf, x.have, data);
  }

  lemma WriteBytes(x: Xfer, c: Chan, n: nat)
    requires ChanOk(c) && Shaped(x) && !x.reading && n <= x.need && AtEnd(x, c)
    ensures MovedTo(x, c, n, x.buf, c.sent + x.buf[x.have..x.have + n])
  {
    var data := x.buf[x.have..x.have + n];
    assert (c.sent + data)[|c.sent|..|c.sent| + n] == data;
    Joins(x.buf, 0, x.have, x.have + n);
  }

  lemma MoveBytes(x: Xfer, c: Chan, n: nat)
    requires ChanOk(c) && Shaped(x) && n <= x.need && n <= Room(x, c) && AtEnd(x, c)
    ensures MovedTo(x, c, n, MoveBuf(x, c, n).buf, MoveChan(x, c, n).sent)
  {
    if x.reading { ReadBytes(x, c, n); } else { WriteBytes(x, c, n); }
  }

  /** More of the stream behind what is placed already. */
  lemma PlacedOn(x: Xfer, c: Chan, x': Xfer, c': Chan)
    requires Placed(x, c) && Same(x, x') && x'.have <= |x.buf| && c.sent <= c'.sent && x.start + x'.have <= |c'.sent|
    requires x'.buf[..x'.have] == x.buf[..x.have] + c'.sent[x.start + x.have..x.start + x'.have]
    requires x'.buf[x'.have..] == x.buf[x'.have..] && (!x.reading ==> x'.buf == x.buf)
    ensures Placed(x', c')
  {
    StillPlaced(x, c, c');
    Joins(c'.sent, x.start, x.start + x.have, x.start + x'.have);
    Joins(x.orig, 0, x.have, x'.have);
    Joins(x.buf, 0, x.have, x'.have);
  }

  lemma MovePlaced(x: Xfer, c: Chan, n: nat)
    requires ChanOk(c) && Shaped(x) && n <= x.need && n <= Room(x, c) && Placed(x, c) && AtEnd(x, c)
    ensures var x', c' := MoveBuf(x, c, n), MoveChan(x, c, n);
            Kept(x, c, Both(x', c'))
  {
    MoveBytes(x, c, n);
    PlacedOn(x, c, MoveBuf(x, c, n), MoveChan(x, c, n));
  }

  lemma MoveOk(x: Xfer, c: Chan, n: nat)
    requires ChanOk(c) && XferOk(x) && !Ended(x) && 0 < n <= x.need && n <= Room(x, c)
    ensures var x' := MoveBuf(x, c, n);
            && (if n < x.need then XferOk(x') && !Ended(x') else XferOk(Stop(x', x'.have, 0)))
  {
    Logged(|x.buf|, x.log, Moved(n));
  }

  lemma EndOk(x: Xfer, e: Seen, r: Ret)
    requires XferOk(x) && !Ended(x) && !e.Moved? && (e.NothingToDo? ==> |x.buf| == 0)
    requires Verdict(|x.buf|, x.log + [e]) == Some(r)
    ensures XferOk(Stop(Saw(x, e), r.val, r.err))
  {
    Logged(|x.buf|, x.log, e);
  }

  /** A report that moves nothing: the transfer goes on, or stops with what its history calls for. */
  lemma SawOk(x: Xfer, e: Seen)
    requires XferOk(x) && !Ended(x) && !e.Moved? && (e.NothingToDo? ==> |x.buf| == 0)
    ensures match e
            case Zeroed(n) => XferOk(Stop(Saw(x, e), if Benign(n) then x.have else -1, n))
            case Failed(n) => if n == EINTR || n == EAGAIN then XferOk(Saw(x, e)) else XferOk(Stop(Saw(x, e), -1, n))
            case NothingToDo => XferOk(Stop(Saw(x, e), x.have, 0))
            case LoopError => XferOk(Stop(Saw(x, e), -1, ENODEV))
            case Expired => XferOk(if x.have == 0 then Stop(Saw(x, e), -1, EWOULDBLOCK) else Stop(Saw(x, e), x.have, 0))
            case Moved(_) => true
  {
    Logged(|x.buf|, x.log, e);
    var v := Verdict(|x.buf|, x.log + [e]);
    if v.Some? { EndOk(x, e, v.value); }
  }

  lemma StillKept(x: Xfer, c: Chan, x': Xfer)
    requires ChanOk(c) && Shaped(x) && Placed(x, c) && AtEnd(x, c)
    requires Same(x, x') && x'.buf == x.buf && x'.have == x.have
    ensures Kept(x, c, Both(x', c))
  {
  }

  lemma StopPlaced(x: Xfer, c: Chan, r: Both, val: int, err: int)
    requires Kept(x, c, r)
    ensures Kept(x, c, Both(Stop(r.x, val, err), r.c))
  {
  }

  lemma PassMoves(x: Xfer, c: Chan, a: Answer)
    requires ChanOk(c) && Shaped(x) && x.need > 0 && Placed(x, c) && AtEnd(x, c) && ReplyTo(a, x.need, Room(x, c)).n > 0
    ensures Kept(x, c, Pass(x, c, a))
  {
    var n := ReplyTo(a, x.need, Room(x, c)).n;
    MovePlaced(x, c, n);
    StopPlaced(x, c, Both(MoveBuf(x, c, n), MoveChan(x, c, n)), x.have + n, 0);
  }

  lemma PassPlaced(x: Xfer, c: Chan, a: Answer)
    requires ChanOk(c) && Shaped(x) && x.need > 0 && Placed(x, c) && AtEnd(x, c)
    ensures Kept(x, c, Pass(x, c, a))
  {
    if ReplyTo(a, x.need, Room(x, c)).n > 0 { PassMoves(x, c, a); } else { StillKept(x, c, Pass(x, c, a).x); }
  }

  lemma PassOk(x: Xfer, c: Chan, a: Answer)
    requires ChanOk(c) && XferOk(x) && !Ended(x) && x.need > 0
    ensures XferOk(Pass(x, c, a).x)
    ensures GoesOn(x, c, a) ==> !Ended(Pass(x, c, a).x) && Pass(x, c, a).x.need > 0 && ChanOk(Pass(x, c, a).c)
  {
    var r := ReplyTo(a, x.need, Room(x, c));
    if r.n > 0 { MoveOk(x, c, r.n); } else if r.n == 0 { SawOk(x, Zeroed(r.errno)); } else { SawOk(x, Failed(r.errno)); }
  }

  /** What the stream holds already stays where it is when it grows. */
  lemma StillPlaced(x: Xfer, c: Chan, c': Chan)
    requires Placed(x, c) && c.sent <= c'.sent
    ensures Placed(x, c')
  {
    assert c'.sent[x.start..x.start + x.have] == c.sent[x.start..x.start + x.have];
  }

  lemma MeanwhilePlaced(x: Xfer, c: Chan, t: Turn)
    requires ChanOk(c) && Placed(x, c) && AtEnd(x, c)
    ensures var c' := Meanwhile(x.reading, c, t); Placed(x, c') && AtEnd(x, c') && Forward(c, c')
  {
    StillPlaced(x, c, Meanwhile(x.reading, c, t));
  }

  predicate KeptForward(x: Xfer, c: Chan, r: Both) {
    Placed(r.x, r.c) && AtEnd(r.x, r.c) && Forward(c, r.c) && Same(x, r.x)
  }

  lemma KeptThrough(x: Xfer, c: Chan, c0: Chan, p: Both, r: Both)
    requires Forward(c, c0) && Kept(x, c0, p) && KeptForward(p.x, p.c, r)
    ensures KeptForward(x, c, r)
  {
  }

  /** The loop moves bytes in stream order, whatever the other side does between its calls. */
  lemma {:induction false} ServePlaced(x: Xfer, c: Chan, turns: seq<Turn>)
    requires ChanOk(c) && Shaped(x) && x.need > 0 && Placed(x, c) && AtEnd(x, c)
    ensures KeptForward(x, c, Serve(x, c, turns))
    decreases |turns|
  {
    if turns != [] {
      var c0 := Meanwhile(x.reading, c, turns[0]);
      MeanwhilePlaced(x, c, turns[0]);
      PassPlaced(x, c0, turns[0].answer);
      if GoesOn(x, c0, turns[0].answer) {
        var p := Pass(x, c0, turns[0].answer);
        ServePlaced(p.x, p.c, turns[1..]);
        KeptThrough(x, c, c0, p, Serve(p.x, p.c, turns[1..]));
      }
    }
  }

  /** The loop keeps a transfer as its history calls for. */
  lemma {:induction false} ServeOk(x: Xfer, c: Chan, turns: seq<Turn>)
    requires ChanOk(c) && XferOk(x) && !Ended(x) && x.need > 0
    ensures XferOk(Serve(x, c, turns).x)
    decreases |turns|
  {
    if turns == [] {
      SawOk(x, Failed(EAGAIN));
    } else {
      var c0 := Meanwhile(x.reading, c, turns[0]);
      PassOk(x, c0, turns[0].answer);
      if GoesOn(x, c0, turns[0].answer) {
        var p := Pass(x, c0, turns[0].answer);
        ServeOk(p.x, p.c, turns[1..]);
      }
    }
  }

  /** Any wake-up, by either watcher. */
  lemma WakeOk(x: Xfer, c: Chan, w: Wake)
    requires ChanOk(c) && XferOk(x) && CanWake(x, w)
    ensures XferOk(OnWake(x, c, w).x)
  {
    match w
    case Ready(turns) => if x.need == 0 { SawOk(x, NothingToDo); } else { ServeOk(x, c, turns); }
    case Timeout => SawOk(x, Expired);
    case IoError => SawOk(x, LoopError);
    case TimerError => SawOk(x, LoopError);
  }

  lemma WakePlaced(x: Xfer, c: Chan, w: Wake)
    requires ChanOk(c) && Shaped(x) && Placed(x, c) && AtEnd(x, c)
    ensures KeptForward(x, c, OnWake(x, c, w))
  {
    if w.Ready? && x.need > 0 { ServePlaced(x, c, w.turns); }
  }

  lemma StartOk(reading: bool, buf: seq<Byte>, timeoutMs: int, c: Chan)
    requires ChanOk(c)
    ensures var x := Start(reading, buf, timeoutMs, c); XferOk(x) && Placed(x, c) && AtEnd(x, c) && !Ended(x)
  {
  }

  // ----- progress -----

  predicate Delay(e: Seen) { e.Failed? && (e.errno == EINTR || e.errno == EAGAIN) }

  /** The calls that an interruption or a full or empty channel made useless. */
  function Delays(log: seq<Seen>): nat {
    if log == [] then 0 else Delays(log[..|log| - 1]) + (if Delay(log[|log| - 1]) then 1 else 0)
  }

  /** Every report moves a byte, is a delay, or ends the transfer. */
  lemma {:induction false} LogBound(count: nat, log: seq<Seen>)
    requires Ongoing(count, log)
    ensures |log| <= Total(log) + Delays(log) + (if Verdict(count, log).Some? then 1 else 0)
  {
    if log != [] { LogBound(count, log[..|log| - 1]); }
  }

  /**
   A transfer makes no more system calls than it has bytes to move and delays to wait out, and one
   that ends it: need_io falls with every call that moves something.
  */
  lemma CallsBounded(x: Xfer)
    requires XferOk(x)
    ensures |x.log| <= x.have + Delays(x.log) + (if Ended(x) then 1 else 0)
    ensures x.have <= |x.buf|
  {
    LogBound(|x.buf|, x.log);
  }

  function Interrupts(turns: seq<Turn>): nat {
    if turns == [] then 0 else (if turns[0].answer == Fails(EINTR) then 1 else 0) + Interrupts(turns[1..])
  }

  /** The loop ends by itself: it never asks for more turns than need_io and the interruptions among them. */
  lemma {:induction false} LoopEnds(x: Xfer, c: Chan, turns: seq<Turn>, more: seq<Turn>)
    requires ChanOk(c) && Shaped(x) && 0 < x.need && x.need + Interrupts(turns) <= |turns|
    ensures Serve(x, c, turns + more) == Serve(x, c, turns)
    decreases |turns|
  {
    var c0 := Meanwhile(x.reading, c, turns[0]);
    assert (turns + more)[1..] == turns[1..] + more;
    if GoesOn(x, c0, turns[0].answer) {
      var p := Pass(x, c0, turns[0].answer);
      LoopEnds(p.x, p.c, turns[1..], more);
    }
  }

  /** The turns that move something whenever there is something to move. */
  function Helpful(turns: seq<Turn>): nat {
    if turns == [] then 0 else (if turns[0].answer.Upto? && turns[0].answer.k > 0 then 1 else 0) + Helpful(turns[1..])
  }

  /** Short transfers and interruptions only delay a wake-up that finds enough room: it ends the request with count. */
  lemma {:induction false} ServeCompletes(x: Xfer, c: Chan, turns: seq<Turn>)
    requires ChanOk(c) && Shaped(x) && 0 < x.need <= Room(x, c) && x.need <= Helpful(turns)
    requires forall i :: 0 <= i < |turns| ==>
               (turns[i].answer.Upto? && turns[i].answer.k > 0) || turns[i].answer == Fails(EINTR)
    ensures var r := Serve(x, c, turns).x;
            Ended(r) && r.ret == Ret(AsInt(|x.buf|), 0) && r.have == |x.buf|
    decreases |turns|
  {
    var c0 := Meanwhile(x.reading, c, turns[0]);
    var p := Pass(x, c0, turns[0].answer);
    if GoesOn(x, c0, turns[0].answer) { ServeCompletes(p.x, p.c, turns[1..]); }
  }

  // ----- what a coroutine may conclude from the value it gets -----

  function LastSeen(x: Xfer): Seen
    requires x.log != []
  {
    x.log[|x.log| - 1]
  }

  /** The last report was an error, or the timer expired before anything was moved. */
  predicate Errored(x: Xfer)
    requires x.log != []
  {
    match LastSeen(x)
    case Zeroed(e) => e != 0 && e != EAGAIN && e != EWOULDBLOCK
    case Expired => x.have == 0
    case Failed(_) => true
    case LoopError => true
    case _ => false
  }

  lemma {:induction false} NotFull(count: nat, log: seq<Seen>)
    requires Ongoing(count, log) && Verdict(count, log).None? && count > 0
    ensures Total(log) < count
  {
    if log != [] && !log[|log| - 1].Moved? { NotFull(count, log[..|log| - 1]); }
  }

  /**
   What the result tells. Up to INT_MAX bytes, a result n >= 0 means that exactly n bytes were
   moved and -1 an error, or a timeout that found nothing moved. All of count is moved unless the
   transfer was ended by a transfer of zero bytes, by the timer or by an error.
  */
  lemma ResultMeans(x: Xfer)
    requires XferOk(x) && Ended(x)
    ensures x.ret.val == (if Errored(x) then -1 else AsInt(x.have))
    ensures x.ret.val == -1 <==> Errored(x) || x.have % 0x1_0000_0000 == 0xFFFF_FFFF
    ensures |x.buf| <= INT_MAX && x.ret.val != -1 ==> x.ret.val == x.have
    ensures !Errored(x) && x.have < |x.buf| ==> LastSeen(x).Zeroed? || LastSeen(x).Expired?
    ensures x.have == |x.buf| > 0 ==> LastSeen(x).Moved?
  {
    if |x.buf| > 0 { NotFull(|x.buf|, x.log[..|x.log| - 1]); }
  }

  /** The caller gets the number of bytes moved exactly when an int can hold it. */
  lemma IntHolds(x: Xfer)
    requires XferOk(x) && Ended(x)
    ensures Delivered(x.ret) == x.ret
    ensures !Errored(x) ==> (x.ret.val == x.have <==> x.have <= INT_MAX)
  {
    ResultMeans(x);
    AsIntExact(x.have);
  }

  /** A call that moves part of what is needed: the loop goes on. */
  lemma PartMoves(x: Xfer, c: Chan, n: nat)
    requires ChanOk(c) && Shaped(x) && 0 < n < x.need && n <= Room(x, c)
    ensures GoesOn(x, c, Upto(n)) && Pass(x, c, Upto(n)) == Both(MoveBuf(x, c, n), MoveChan(x, c, n))
  {
  }

  /** A call that moves all that is needed: the transfer ends with count. */
  lemma RestMoves(x: Xfer, c: Chan, t: Turn)
    requires ChanOk(c) && Shaped(x) && t.answer == Upto(x.need) && 0 < x.need <= Room(x, Meanwhile(x.reading, c, t))
    ensures var r := Serve(x, c, [t]).x; Ended(r) && r.have == |x.buf| && r.ret == Ret(AsInt(|x.buf|), 0)
  {
    assert Serve(x, c, [t]) == Pass(x, Meanwhile(x.reading, c, t), t.answer);
  }

  /** One turn of the loop that goes on. */
  lemma ServeOn(x: Xfer, c: Chan, t: Turn, rest: seq<Turn>, c0: Chan, p: Both)
    requires ChanOk(c) && Shaped(x) && x.need > 0 && c0 == Meanwhile(x.reading, c, t)
    requires GoesOn(x, c0, t.answer) && p == Pass(x, c0, t.answer)
    ensures p.x.need > 0 && Serve(x, c, [t] + rest) == Serve(p.x, p.c, rest)
  {
    assert ([t] + rest)[1..] == rest;
  }

  /**
   A read of 2n bytes in two calls of n from a channel that holds n bytes and is filled up in
   between: all of them are moved, and the result is 2n passed through int.
  */
  lemma TwoReads(x: Xfer, c: Chan, more: seq<Byte>, n: nat)
    requires ChanOk(c) && Shaped(x) && x.reading && x.need == 2 * n > 0
    requires |c.sent| - c.got == c.capacity == |more| == n
    ensures var r := Serve(x, c, [Turn([], 0, Upto(n))] + [Turn(more, 0, Upto(n))]).x;
            Ended(r) && r.have == |x.buf| && r.ret == Ret(AsInt(|x.buf|), 0)
  {
    var first, second := Turn([], 0, Upto(n)), Turn(more, 0, Upto(n));
    PartMoves(x, c, n);
    assert Meanwhile(true, c, first) == c by { assert c.sent + [] == c.sent; }
    ServeOn(x, c, first, [second], c, Both(MoveBuf(x, c, n), MoveChan(x, c, n)));
    RestMoves(MoveBuf(x, c, n), MoveChan(x, c, n), second);
  }

  /** So a read of 2^31 bytes that moves all of them returns a negative number. */
  lemma LargeReadLooksNegative(x: Xfer, c: Chan, more: seq<Byte>, n: nat, r: Both)
    requires ChanOk(c) && Shaped(x) && x.reading && x.have == 0 && |x.buf| == 0x8000_0000 && n == 0x4000_0000
    requires |c.sent| - c.got == c.capacity == |more| == n
    requires r == Serve(x, c, [Turn([], 0, Upto(n))] + [Turn(more, 0, Upto(n))])
    ensures Ended(r.x) && r.x.have == 0x8000_0000 && r.x.ret == Ret(-0x8000_0000, 0)
  {
    TwoReads(x, c, more, n);
  }

  // ----- the transfer as the scheduler sees it -----

  /**
   The scheduler's watchers of a socket request are those of the transfer: they are armed alike at
   the start, the same callbacks may run, and the callback that ends the transfer leaves none; it
   stores the result and the done action that the scheduler's step stores.
  */
  lemma SchedulerAgrees(k: Task, w: nat, x: Xfer)
    requires IsSocketTransfer(k.action) && XferOk(x)
    requires x.reading == k.action.SockRead? && x.timeoutMs == k.args.timeoutMs
    ensures !Ended(x) ==> Armed(k, w) == Watch(w, x.io, x.timer) && x.action == k.action
    ensures Ended(x) ==>
              && AfterStop(k, Armed(k, w)) == Watch(w, x.io, x.timer) && !x.io && !x.timer
              && x.action == DoneAction(k.action) && Outcome(k.action, x.ret) == x.ret && x.notified == 1
  {
  }
}
