/** The idle-aware framer of connection.go: the monitor goroutine, the writers and setters that
    send to it under their locks, the frame reader that sends to it without a lock, and the
    shutdown in which the monitor closes both channels. */
module IdleMonitor {
  import opened Options

  const RESET_CAPACITY := 2
  const TIMEOUT_CAPACITY := 1

  /** A buffered channel and the field of the framer that holds it until it is set to nil. */
  datatype Chan = Chan(count: nat, closed: bool, isNil: bool)

  datatype Owner = Monitor | Caller(id: nat)

  /** A call of WriteFrame (or setIdleTimeout) that holds its lock and found the field non-nil. */
  datatype Stage = Writing | Sending

  datatype Lock = Free | Held(owner: Owner, stage: Stage)

  /** Where the monitor is; Locked, Closed and Cleared are stages of the two critical sections,
      after the lock is taken, after the channel is closed, after the field is set to nil. */
  datatype MonitorAt =
    | Selecting
    | WantsWriteLock | ResetLocked | ResetClosed | ResetCleared
    | WantsTimeoutLock | TimeoutLocked | TimeoutClosed | TimeoutCleared
    | Draining | Done

  datatype ReaderAt = Reading | Announcing | Stopped

  datatype State = State(
    connClosed: bool,        // the closeChan of the connection
    reader: ReaderAt,        // Serve in ReadFrame
    monitor: MonitorAt,
    reset: Chan, timeout: Chan,
    writeLock: Lock, timeoutLock: Lock)

  function Start(): State {
    State(false, Reading, Selecting, Chan(0, false, false), Chan(0, false, false), Free, Free)
  }

  datatype Action =
    | ReadFrame | AnnounceRead | StopReading | CloseConn             // Serve
    | LockWrite(id: nat) | NetworkWrite(ok: bool) | SendReset        // WriteFrame
    | LockTimeout(id: nat) | SendTimeout                             // setIdleTimeout
    | SelectReset | SelectTimeout | SelectClosed | SelectExpired     // the select of monitor
    | MonitorStep                                                    // the rest of monitor
    | DrainReset | DrainTimeout                                      // the two drainers

  predicate HeldByCaller(lock: Lock, stage: Stage) {
    lock.Held? && lock.owner.Caller? && lock.stage == stage
  }

  predicate Drainer(s: State) { s.monitor != Selecting }

  predicate Enabled(s: State, a: Action) {
    match a
    case ReadFrame => s.reader == Reading
    case AnnounceRead => s.reader == Announcing && CanSend(s.reset, RESET_CAPACITY)
    case StopReading => s.reader == Reading
    case CloseConn => s.reader == Stopped && !s.connClosed
    case LockWrite(_) => s.writeLock == Free
    case NetworkWrite(_) => HeldByCaller(s.writeLock, Writing)
    case SendReset => HeldByCaller(s.writeLock, Sending) && CanSend(s.reset, RESET_CAPACITY)
    case LockTimeout(_) => s.timeoutLock == Free
    case SendTimeout => HeldByCaller(s.timeoutLock, Sending) && CanSend(s.timeout, TIMEOUT_CAPACITY)
    case SelectReset => s.monitor == Selecting && s.reset.count > 0
    case SelectTimeout => s.monitor == Selecting && s.timeout.count > 0
    case SelectClosed => s.monitor == Selecting && s.connClosed
    case SelectExpired => s.monitor == Selecting
    case MonitorStep =>
      (match s.monitor
       case Selecting => false
       case WantsWriteLock => s.writeLock == Free
       case WantsTimeoutLock => s.timeoutLock == Free
       case Draining => s.reset.count > 0 || s.reset.closed
       case Done => false
       case _ => true)
    case DrainReset => Drainer(s) && s.reset.count > 0
    case DrainTimeout => Drainer(s) && s.timeout.count > 0
  }

  /** A send on a nil channel blocks for ever; one on a closed channel panics, which the
      invariant below rules out. */
  predicate CanSend(c: Chan, capacity: nat) { !c.isNil && c.count < capacity }

  function Sent(c: Chan): Chan { c.(count := c.count + 1) }

  function Received(c: Chan): Chan
    requires c.count > 0
  {
    c.(count := c.count - 1)
  }

  function Apply(s: State, a: Action): State
    requires Enabled(s, a)
  {
    match a
    case ReadFrame => s.(reader := Announcing)
    case AnnounceRead => s.(reader := Reading, reset := Sent(s.reset))
    case StopReading => s.(reader := Stopped)
    case CloseConn => s.(connClosed := true)
    case LockWrite(id) => if s.reset.isNil then s else s.(writeLock := Held(Caller(id), Writing))
    case NetworkWrite(ok) => s.(writeLock := if ok then s.writeLock.(stage := Sending) else Free)
    case SendReset => s.(writeLock := Free, reset := Sent(s.reset))
    case LockTimeout(id) => if s.timeout.isNil then s else s.(timeoutLock := Held(Caller(id), Sending))
    case SendTimeout => s.(timeoutLock := Free, timeout := Sent(s.timeout))
    case SelectReset => s.(reset := Received(s.reset))
    case SelectTimeout => s.(timeout := Received(s.timeout))
    case SelectClosed => s.(monitor := WantsWriteLock)
    case SelectExpired => s  // what it does to the streams is in module Pipeline
    case MonitorStep =>
      (match s.monitor
       case WantsWriteLock => s.(monitor := ResetLocked, writeLock := Held(Monitor, Writing))
       case ResetLocked => s.(monitor := ResetClosed, reset := s.reset.(closed := true))
       case ResetClosed => s.(monitor := ResetCleared, reset := s.reset.(isNil := true))
       case ResetCleared => s.(monitor := WantsTimeoutLock, writeLock := Free)
       case WantsTimeoutLock => s.(monitor := TimeoutLocked, timeoutLock := Held(Monitor, Writing))
       case TimeoutLocked => s.(monitor := TimeoutClosed, timeout := s.timeout.(closed := true))
       case TimeoutClosed => s.(monitor := TimeoutCleared, timeout := s.timeout.(isNil := true))
       case TimeoutCleared => s.(monitor := Draining, timeoutLock := Free)
       case Draining => if s.reset.count > 0 then s.(reset := Received(s.reset)) else s.(monitor := Done))
    case DrainReset => s.(reset := Received(s.reset))
    case DrainTimeout => s.(timeout := Received(s.timeout))
  }

  function Run(from: State, acts: seq<Action>): Option<State> {
    if acts == [] then Some(from)
    else
      var s := Run(from, acts[..|acts| - 1]);
      var a := acts[|acts| - 1];
      if s.Some? && Enabled(s.value, a) then Some(Apply(s.value, a)) else None
  }

  // -------------------------------------------------------------------------
  // Safety

  function Rank(m: MonitorAt): nat {
    match m
    case Selecting => 0
    case WantsWriteLock => 1 case ResetLocked => 2 case ResetClosed => 3 case ResetCleared => 4
    case WantsTimeoutLock => 5 case TimeoutLocked => 6 case TimeoutClosed => 7 case TimeoutCleared => 8
    case Draining => 9 case Done => 10
  }

  ghost predicate Inv(s: State) {
    var rank := Rank(s.monitor);
    && (s.connClosed ==> s.reader == Stopped)
    && (rank >= 1 ==> s.connClosed)
    && s.reset.closed == (rank >= 3) && s.reset.isNil == (rank >= 4)
    && s.timeout.closed == (rank >= 7) && s.timeout.isNil == (rank >= 8)
    && s.reset.count <= RESET_CAPACITY && s.timeout.count <= TIMEOUT_CAPACITY
    && (2 <= rank <= 4 <==> s.writeLock.Held? && s.writeLock.owner == Monitor)
    && (6 <= rank <= 8 <==> s.timeoutLock.Held? && s.timeoutLock.owner == Monitor)
    && (s.writeLock.Held? && s.writeLock.owner.Caller? ==> rank <= 1)
    && (s.timeoutLock.Held? && s.timeoutLock.owner.Caller? ==> rank <= 5 && s.timeoutLock.stage == Sending)
  }

  lemma InvStep(s: State, a: Action)
    requires Inv(s) && Enabled(s, a)
    ensures Inv(Apply(s, a))
  {}

  lemma {:induction false} InvRun(from: State, acts: seq<Action>)
    requires Inv(from) && Run(from, acts).Some?
    ensures Inv(Run(from, acts).value)
  {
    if acts != [] {
      InvRun(from, acts[..|acts| - 1]);
      InvStep(Run(from, acts[..|acts| - 1]).value, acts[|acts| - 1]);
    }
  }

  /** Whoever is about to send, or blocked in a send, does so on an open channel: neither
      channel is closed, or its field cleared, under a sender. */
  lemma NoSendOnClosedChannel(acts: seq<Action>)
    requires Run(Start(), acts).Some?
    ensures var s := Run(Start(), acts).value;
            && (HeldByCaller(s.writeLock, Sending) || s.reader == Announcing ==> !s.reset.closed && !s.reset.isNil)
            && (HeldByCaller(s.timeoutLock, Sending) ==> !s.timeout.closed && !s.timeout.isNil)
  {
    InvRun(Start(), acts);
  }

  // -------------------------------------------------------------------------
  // The monitor gets its locks

  /** The monitor waits for the write lock, which some call of WriteFrame holds. */
  predicate WriterBlocksMonitor(s: State) {
    s.monitor == WantsWriteLock && s.writeLock.Held?
  }

  predicate SetterBlocksMonitor(s: State) {
    s.monitor == WantsTimeoutLock && s.timeoutLock.Held?
  }

  /** The steps of the caller that holds the lock, and of the goroutine that drains for it. */
  predicate Frees(s: State, a: Action) {
    if WriterBlocksMonitor(s) then a.NetworkWrite? || a == SendReset || a == DrainReset
    else a == SendTimeout || a == DrainTimeout
  }

  /** How many such steps can still be taken before the lock is free. */
  function StepsLeft(s: State): nat {
    if WriterBlocksMonitor(s) then (if s.writeLock.stage == Writing then 6 else 3) + s.reset.count
    else if SetterBlocksMonitor(s) then 2 + s.timeout.count
    else 0
  }

  /** While a caller keeps the monitor from a lock, one of the steps that free it is enabled: a
      send on a full channel waits for the drainer only, which is already running. Each of
      them leaves fewer to take, and no other step of anyone adds to them. */
  lemma BlockedMonitorIsFreed(s: State, a: Action)
    requires Inv(s) && (WriterBlocksMonitor(s) || SetterBlocksMonitor(s))
    ensures exists b :: Frees(s, b) && Enabled(s, b)
    ensures Enabled(s, a) && Frees(s, a) ==> StepsLeft(Apply(s, a)) < StepsLeft(s)
    ensures Enabled(s, a) && !Frees(s, a) ==>
      && StepsLeft(Apply(s, a)) == StepsLeft(s)
      && WriterBlocksMonitor(Apply(s, a)) == WriterBlocksMonitor(s)
      && SetterBlocksMonitor(Apply(s, a)) == SetterBlocksMonitor(s)
  {
    if WriterBlocksMonitor(s) {
      if s.writeLock.stage == Writing {
        assert Enabled(s, NetworkWrite(true)) && Frees(s, NetworkWrite(true));
      } else if s.reset.count < RESET_CAPACITY {
        assert Enabled(s, SendReset) && Frees(s, SendReset);
      } else {
        assert Enabled(s, DrainReset) && Frees(s, DrainReset);
      }
    } else if s.timeout.count < TIMEOUT_CAPACITY {
      assert Enabled(s, SendTimeout) && Frees(s, SendTimeout);
    } else {
      assert Enabled(s, DrainTimeout) && Frees(s, DrainTimeout);
    }
  }

  /** The number of freeing steps in a run that starts at a state where the monitor is blocked. */
  function Helped(from: State, acts: seq<Action>): nat {
    if acts == [] then 0
    else Helped(from, acts[..|acts| - 1]) + (if Frees(from, acts[|acts| - 1]) then 1 else 0)
  }

  ghost predicate BlockedThroughout(from: State, acts: seq<Action>) {
    forall n | 0 <= n <= |acts| ::
      && Run(from, acts[..n]).Some?
      && WriterBlocksMonitor(Run(from, acts[..n]).value) == WriterBlocksMonitor(from)
      && SetterBlocksMonitor(Run(from, acts[..n]).value) == SetterBlocksMonitor(from)
  }

  /** Over any run, with any interleaving of all other goroutines: at most StepsLeft of the
      freeing steps are taken before the monitor finds the lock free. */
  lemma {:induction false} BlockingIsBounded(from: State, acts: seq<Action>)
    requires Inv(from) && (WriterBlocksMonitor(from) || SetterBlocksMonitor(from))
    requires BlockedThroughout(from, acts)
    ensures Run(from, acts).Some? && Helped(from, acts) + StepsLeft(Run(from, acts).value) <= StepsLeft(from)
  {
    if acts == [] {
    } else {
      var prefix := acts[..|acts| - 1];
      assert forall n | 0 <= n <= |prefix| :: prefix[..n] == acts[..n];
      BlockingIsBounded(from, prefix);
      assert acts[..|acts|] == acts;
      var s := Run(from, prefix).value;
      InvRun(from, prefix);
      BlockedMonitorIsFreed(s, acts[|acts| - 1]);
    }
  }
}
