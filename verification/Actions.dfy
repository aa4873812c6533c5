/** The vocabulary of the scheduler: the action tag of a task record, requests, and results. */
module Actions {

  /** `enum action_t`: what a task record asks its next handler to do. */
  datatype Action =
    | NewCoroutine | FinishedCoroutine | SchedYield
    | DiskOpen | DiskRead | DiskWrite
    | SockRead | SockWrite | SockDone
    | DiskOpenDone | DiskReadDone | DiskWriteDone
    | BlockedConnect | BlockedConnectDone
    | TimeoutConnect | TimeoutConnectDone
    | Msleep | MsleepDone
    | BgRun | BgRunDone
    | TcpAccept | TcpAcceptDone
    | SemActivation

  /** The actions `do_task` dispatches on; every other action makes it abort. */
  predicate IsRequest(a: Action) {
    || a.DiskOpen? || a.DiskRead? || a.DiskWrite? || a.SockRead? || a.SockWrite?
    || a.BlockedConnect? || a.TimeoutConnect? || a.Msleep? || a.BgRun? || a.TcpAccept?
  }

  /** The requests for which `do_task` returns 0: the result is there when it returns. */
  predicate IsSynchronous(a: Action) {
    a.DiskOpen? || a.DiskRead? || a.DiskWrite? || a.BlockedConnect? || a.BgRun?
  }

  predicate IsSocketTransfer(a: Action) { a.SockRead? || a.SockWrite? }

  /** The action a handler leaves in the task record when the request is complete. */
  function DoneAction(a: Action): Action
    requires IsRequest(a)
  {
    match a
    case DiskOpen => DiskOpenDone
    case DiskRead => DiskReadDone
    case DiskWrite => DiskWriteDone
    case SockRead => SockDone
    case SockWrite => SockDone
    case BlockedConnect => BlockedConnectDone
    case TimeoutConnect => TimeoutConnectDone
    case Msleep => MsleepDone
    case BgRun => BgRunDone
    case TcpAccept => TcpAcceptDone
  }

  /** The completions the manager resumes a coroutine for. */
  predicate IsDone(a: Action) {
    || a.DiskOpenDone? || a.DiskReadDone? || a.DiskWriteDone? || a.SockDone? || a.BlockedConnectDone?
    || a.TimeoutConnectDone? || a.MsleepDone? || a.BgRunDone? || a.TcpAcceptDone?
  }

  /** The second group of cases of the manager's switch: swap into the saved context. */
  predicate IsResumable(a: Action) { a.SchedYield? || a.SemActivation? || IsDone(a) }

  /** The `ret` member of a task record: value and error code. */
  datatype Ret = Ret(val: int, err: int)

  /** A request as a coroutine hands it over: the action, its arguments, and the timeout in ms (0: none). */
  datatype Request = Request(action: Action, arg: int, timeoutMs: int)

  /** Conversion of an `ssize_t` to the 32-bit `int` that `coroutine_get_retval` returns. */
  function AsInt(v: int): int {
    var m := v % 0x1_0000_0000;
    if m < 0x8000_0000 then m else m - 0x1_0000_0000
  }

  /** What the suspended call sees: the value narrowed to `int`, the error code as stored. */
  function Delivered(r: Ret): Ret { Ret(AsInt(r.val), r.err) }

  /** Narrowing is harmless for exactly the values an `int` can hold. */
  lemma AsIntExact(v: int)
    ensures AsInt(v) == v <==> -0x8000_0000 <= v < 0x8000_0000
  {
  }

  /**
   What a handler stores, given what the kernel or the background function returned and left in
   errno. A socket transfer arrives with the result and the error code its callback chose.
  */
  function Outcome(a: Action, raw: Ret): Ret {
    if a.Msleep? then Ret(0, 0)
    else if a.BgRun? then Ret(raw.val, 0)
    else if IsSocketTransfer(a) || raw.val < 0 then raw
    else Ret(raw.val, 0)
  }

  const TWO_TO_THE_64 := 0x1_0000_0000_0000_0000

  const INT_MAX := 0x7FFF_FFFF

  /** `x + 1` in a `uint64_t`. */
  function Inc64(x: nat): (r: nat) {
    (x + 1) % TWO_TO_THE_64
  }
}
