/** The socket handlers in place: the callbacks of the io watcher and of the timer. */
module SocketTransfer {
  import opened Actions
  import opened Transfers

  /** A connected stream, as the kernel keeps it; it belongs to the environment. */
  class Socket {
    const capacity: nat
    var sent: seq<Byte>
    var got: nat

    ghost predicate Valid()
      reads this
    {
      ChanOk(View())
    }

    ghost function View(): Chan
      reads this
    {
      Chan(sent, got, capacity)
    }

    constructor (capacity: nat)
      ensures View() == Chan([], 0, capacity) && Valid()
    {
      this.capacity := capacity;
      sent, got := [], 0;
    }

    /** What the other side does before the next call. */
    method LetOthersAct(reading: bool, t: Turn)
      requires Valid()
      modifies this
      ensures Valid() && View() == Meanwhile(reading, old(View()), t)
    {
      var flying := |sent| - got;
      if reading {
        var n := if |t.arrived| < capacity - flying then |t.arrived| else capacity - flying;
        sent := sent + t.arrived[..n];
      } else {
        got := got + (if t.left < flying then t.left else flying);
      }
    }

    /** read(2) into buf[off..off + len]. */
    method Read(a: Answer, buf: array<Byte>, off: nat, len: nat) returns (n: int, errno: int)
      requires Valid() && off + len <= buf.Length
      modifies this`got, buf
      ensures Valid() && sent == old(sent) && got == old(got) + (if n > 0 then n else 0)
      ensures Reply(n, errno) == ReplyTo(a, len, |sent| - old(got)) && n <= len
      ensures n > 0 ==> buf[..] == Filled(old(buf[..]), off, sent[old(got)..old(got) + n])
      ensures n <= 0 ==> buf[..] == old(buf[..])
    {
      var r := ReplyTo(a, len, |sent| - got);
      n, errno := r.n, r.errno;
      if n > 0 {
        forall i | 0 <= i < n { buf[off + i] := sent[got + i]; }
        got := got + n;
      }
    }

    /** write(2) from buf[off..off + len]. */
    method Write(a: Answer, buf: array<Byte>, off: nat, len: nat) returns (n: int, errno: int)
      requires Valid() && off + len <= buf.Length
      modifies this`sent
      ensures Reply(n, errno) == ReplyTo(a, len, capacity - (old(|sent|) - got)) && n <= len
      ensures Valid() && sent == old(sent) + (if n > 0 then buf[off..off + n] else [])
    {
      var r := ReplyTo(a, len, capacity - (|sent| - got));
      n, errno := r.n, r.errno;
      if n > 0 { sent := sent + buf[off..off + n]; }
    }
  }

  /** The members of a task record that a transfer uses. */
  class SockTask {
    const reading: bool
    const fd: Socket
    const buf: array<Byte>
    const timeoutMs: int
    var action: Action
    var have: int
    var need: int
    var ret: Ret
    var io: bool
    var timer: bool
    var notified: nat
    ghost var log: seq<Seen>
    ghost const orig: seq<Byte>
    ghost const start: nat

    ghost function View(): Xfer
      reads this, buf
    {
      Xfer(reading, buf[..], timeoutMs, action, have, need, ret, io, timer, notified, log, orig, start)
    }

    ghost predicate Valid()
      reads this, buf, fd
    {
      fd.Valid() && Shaped(View()) && (!Ended(View()) ==> action == if reading then SockRead else SockWrite)
    }

    /** do_sock_read and do_sock_write: arm the watchers, nothing moved yet. */
    constructor (reading: bool, fd: Socket, buf: array<Byte>, timeoutMs: int)
      requires fd.Valid()
      ensures Valid() && View() == Start(reading, buf[..], timeoutMs, fd.View())
      ensures this.fd == fd && this.buf == buf
    {
      this.reading, this.fd, this.buf, this.timeoutMs := reading, fd, buf, timeoutMs;
      action := if reading then SockRead else SockWrite;
      have, need := 0, buf.Length;
      ret := Ret(0, 0);
      io, timer := true, timeoutMs != 0;
      notified := 0;
      log, orig, start := [], buf[..], Position(reading, fd.View());
    }

    /** ev_sock_stop, then coroutine_notify_manager. */
    method StopAndNotify(val: int, err: int)
      modifies this`io, this`timer, this`ret, this`action, this`notified
      ensures View() == Transfers.Stop(old(View()), val, err)
    {
      io := false;
      if timeoutMs != 0 { timer := false; }
      ret := Ret(AsInt(val), err);
      action := SockDone;
      notified := notified + 1;
    }

    /** ev_sock_timeout. */
    method OnTimeout(error: bool)
      requires Valid() && !Ended(View())
      modifies this
      ensures Valid()
      ensures Both(View(), fd.View()) == OnWake(old(View()), fd.View(), if error then TimerError else Timeout)
    {
      log := log + [if error then LoopError else Expired];
      if error {
        StopAndNotify(-1, ENODEV);
      } else if have == 0 {
        StopAndNotify(-1, EWOULDBLOCK);
      } else {
        StopAndNotify(have, 0);
      }
    }

    method Advance(n: int)
      requires 0 < n <= need
      modifies this`have, this`need, this`log
      ensures View() == old(View()).(have := old(have) + n, need := old(need) - n, log := old(log) + [Moved(n)])
    {
      have, need := have + n, need - n;
      log := log + [Moved(n)];
    }

    /** The system call of one pass, after the other side has acted. */
    method ReadCall(t: Turn) returns (n: int, errno: int)
      requires Valid() && reading && need > 0
      modifies fd, buf
      ensures var x, c := old(View()), Meanwhile(true, old(fd.View()), t);
              && Valid() && n <= need && Reply(n, errno) == ReplyTo(t.answer, need, Room(x, c))
              && (if n > 0 then fd.View() == MoveChan(x, c, n) && View() == x.(buf := MoveBuf(x, c, n).buf)
                  else fd.View() == c && View() == x)
    {
      fd.LetOthersAct(true, t);
      n, errno := ReadNow(t.answer);
    }

    lemma ReadBuf(x: Xfer, c: Chan, n: nat, b: seq<Byte>)
      requires ChanOk(c) && Shaped(x) && x.reading && n <= x.need && n <= Room(x, c)
      requires b == Filled(x.buf, x.have, c.sent[c.got..c.got + n])
      ensures MoveBuf(x, c, n).buf == b
    {
    }

    method ReadNow(a: Answer) returns (n: int, errno: int)
      requires Valid() && reading && need > 0
      modifies fd`got, buf
      ensures Valid() && n <= need && Reply(n, errno) == ReplyTo(a, need, Room(old(View()), old(fd.View())))
      ensures n <= 0 ==> fd.View() == old(fd.View()) && View() == old(View())
      ensures n > 0 ==> fd.View() == MoveChan(old(View()), old(fd.View()), n)
      ensures n > 0 ==> View() == old(View()).(buf := MoveBuf(old(View()), old(fd.View()), n).buf)
    {
      ghost var x, c := View(), fd.View();
      n, errno := fd.Read(a, buf, have, need);
      assert Reply(n, errno) == ReplyTo(a, need, Room(x, c)) && fd.sent == c.sent;
      if n > 0 { ReadBuf(x, c, n, buf[..]); }
      assert View() == x.(buf := buf[..]);
    }

    /** The system call of one pass, after the other side has acted. */
    method WriteCall(t: Turn) returns (n: int, errno: int)
      requires Valid() && !reading && need > 0
      modifies fd
      ensures var x, c := old(View()), Meanwhile(false, old(fd.View()), t);
              && Valid() && n <= need && Reply(n, errno) == ReplyTo(t.answer, need, Room(x, c))
              && (if n > 0 then fd.View() == MoveChan(x, c, n) && View() == x.(buf := MoveBuf(x, c, n).buf)
                  else fd.View() == c && View() == x)
    {
      fd.LetOthersAct(false, t);
      n, errno := fd.Write(t.answer, buf, have, need);
    }

    /** Bytes were moved: the request is done, or there is more to do. */
    method Progress(n: int, ghost x: Xfer, ghost c: Chan) returns (again: bool)
      requires Valid() && ChanOk(c) && Shaped(x) && !Ended(x) && 0 < n <= x.need && n <= Room(x, c)
      requires View() == x.(buf := MoveBuf(x, c, n).buf)
      modifies this
      ensures Valid() && (again ==> !Ended(View()) && need > 0) && again == (n < x.need)
      ensures View() == (if n < x.need then MoveBuf(x, c, n) else Transfers.Stop(MoveBuf(x, c, n), x.have + n, 0))
    {
      again := n < need;
      Advance(n);
      if !again { StopAndNotify(have, 0); }
    }

    /** What both handlers make of a reply; x and c are the transfer and the channel before the call. */
    method React(n: int, errno: int, ghost x: Xfer, ghost c: Chan, ghost a: Answer) returns (again: bool)
      requires Valid() && ChanOk(c) && Shaped(x) && !Ended(x) && 0 < x.need && n <= x.need
      requires Reply(n, errno) == ReplyTo(a, x.need, Room(x, c))
      requires if n > 0 then fd.View() == MoveChan(x, c, n) && View() == x.(buf := MoveBuf(x, c, n).buf)
               else fd.View() == c && View() == x
      modifies this
      ensures Valid() && (again ==> !Ended(View()) && need > 0)
      ensures Both(View(), fd.View()) == Pass(x, c, a) && again == GoesOn(x, c, a)
    {
      if n > 0 {
        again := Progress(n, x, c);
        return;
      } else if n == 0 {
        log := log + [Zeroed(errno)];
        StopAndNotify(if Benign(errno) then have else -1, errno);
        return false;
      }
      log := log + [Failed(errno)];
      if errno == EINTR { return true; }
      if errno != EAGAIN { StopAndNotify(-1, errno); }
      return false;
    }

    /** From the label `go`: one read, and what its reply means; `again` is the jump back. */
    method ReadOnce(t: Turn) returns (again: bool)
      requires Valid() && !Ended(View()) && need > 0 && reading
      modifies this, fd, buf
      ensures Valid() && (again ==> !Ended(View()) && need > 0)
      ensures var x, c := old(View()), Meanwhile(true, old(fd.View()), t);
              && Both(View(), fd.View()) == Pass(x, c, t.answer)
              && again == GoesOn(x, c, t.answer)
    {
      ghost var x, c := View(), Meanwhile(true, fd.View(), t);
      var n, errno := ReadCall(t);
      again := React(n, errno, x, c, t.answer);
    }

    /** ev_sock_read: read until the request is done or the call would block. */
    method OnReadable(turns: seq<Turn>, error: bool)
      requires Valid() && !Ended(View()) && reading
      modifies this, fd, buf
      ensures Valid()
      ensures Both(View(), fd.View()) == OnWake(old(View()), old(fd.View()), if error then IoError else Ready(turns))
    {
      if error {
        log := log + [LoopError];
        StopAndNotify(-1, ENODEV);
        return;
      }
      assert action == SockRead;
      if need == 0 {
        log := log + [NothingToDo];
        StopAndNotify(have, 0);
        return;
      }
      for i := 0 to |turns|
        invariant Valid() && !Ended(View()) && need > 0
        invariant Serve(View(), fd.View(), turns[i..]) == Serve(old(View()), old(fd.View()), turns)
      {
        assert turns[i..][0] == turns[i] && turns[i..][1..] == turns[i + 1..];
        var again := ReadOnce(turns[i]);
        if !again { return; }
      }
      log := log + [Failed(EAGAIN)];
    }

    /** From the label `go`: one write, and what its reply means; `again` is the jump back. */
    method WriteOnce(t: Turn) returns (again: bool)
      requires Valid() && !Ended(View()) && need > 0 && !reading
      modifies this, fd
      ensures Valid() && (again ==> !Ended(View()) && need > 0)
      ensures var x, c := old(View()), Meanwhile(false, old(fd.View()), t);
              && Both(View(), fd.View()) == Pass(x, c, t.answer)
              && again == GoesOn(x, c, t.answer)
    {
      ghost var x, c := View(), Meanwhile(false, fd.View(), t);
      var n, errno := WriteCall(t);
      again := React(n, errno, x, c, t.answer);
    }

    /** ev_sock_write: write until the request is done or the call would block. */
    method OnWritable(turns: seq<Turn>, error: bool)
      requires Valid() && !Ended(View()) && !reading
      modifies this, fd
      ensures Valid()
      ensures Both(View(), fd.View()) == OnWake(old(View()), old(fd.View()), if error then IoError else Ready(turns))
    {
      if error {
        log := log + [LoopError];
        StopAndNotify(-1, ENODEV);
        return;
      }
      assert action == SockWrite;
      if need == 0 {
        log := log + [NothingToDo];
        StopAndNotify(have, 0);
        return;
      }
      for i := 0 to |turns|
        invariant Valid() && !Ended(View()) && need > 0
        invariant Serve(View(), fd.View(), turns[i..]) == Serve(old(View()), old(fd.View()), turns)
      {
        assert turns[i..][0] == turns[i] && turns[i..][1..] == turns[i + 1..];
        var again := WriteOnce(turns[i]);
        if !again { return; }
      }
      log := log + [Failed(EAGAIN)];
    }
  }
}
