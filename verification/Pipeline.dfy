/** A connection at work: the goroutine in Serve that reads frames, the five frame handlers with
    their priority queues, the threads of the application and the idle monitor, interleaved at
    will. */
module Pipeline {
  import opened Options
  import opened StreamLife
  import Session
  import Q = StableQueue

  const FRAME_WORKERS := 5
  const QUEUE_SIZE := 50

  type Index = n: nat | n < FRAME_WORKERS

  // -------------------------------------------------------------------------
  // State

  /** Where the goroutine in Serve is. Adding: checkStreamFrame has accepted the frame. Pushing:
      the frame waits for room in its queue. Closing: the loop has ended, with a GOAWAY or not.
      Waiting: in wg.Wait. Sweeping: holds the lock of the table and is still to shut todo. */
  datatype Reader =
    | Reading
    | Adding(syn: SynFrame)
    | Pushing(frame: Frame, priority: uint8, lane: Index)
    | Closing(goAway: bool)
    | Waiting(goAway: bool)
    | GoingAway
    | Locking
    | Sweeping(todo: set<Id>)
    | Done

  datatype Worker = Idle | Busy(frame: Frame, stage: Stage) | Exited

  /** A queue, in the order in which it will be popped, with its frame handler and the frames
      that the handler has finished with. */
  datatype Lane = Lane(queue: seq<Q.Item<Frame>>, drained: bool, worker: Worker, handled: seq<Frame>)

  const FRESH := Lane([], false, Idle, [])

  type Lanes = ls: seq<Lane> | |ls| == FRAME_WORKERS witness [FRESH, FRESH, FRESH, FRESH, FRESH]

  datatype ResetStage = ToShut | ToFinish | ToWrite

  /** A goroutine that the idle monitor started: it resets the streams that it took from the
      table one after another, and is at this stage of resetStream with the first. */
  datatype Expiry = Expiry(queue: seq<Id>, stage: ResetStage)

  /** read holds the frames that Serve has read and kept, streams every stream ever added.
      overtaken is history: the streams of which a frame was queued in front of another one. */
  datatype State = State(
    server: bool, next: Id, received: Id, goneAway: bool,
    reader: Reader, turn: Index, read: seq<Frame>, closed: bool,
    lanes: Lanes, streams: map<Id, Stream>, expiries: seq<Expiry>, overtaken: set<Id>)

  function Init(server: bool): State {
    State(server, if server then 2 else 1, if server then 1 else 2, false,
          Reading, 0, [], false, [FRESH, FRESH, FRESH, FRESH, FRESH], map[], [], {})
  }

  function At(s: State, x: Id): Stream {
    if x in s.streams then s.streams[x] else NOBODY
  }

  function LaneOf(x: Id): Index {
    x % FRAME_WORKERS
  }

  /** The frame in the hands of the reader. */
  function InHand(r: Reader): seq<Frame> {
    match r
    case Adding(syn) => [syn]
    case Pushing(f, _, _) => [f]
    case _ => []
  }

  function Current(w: Worker): seq<Frame> {
    if w.Busy? then [w.frame] else []
  }

  /** The peer's stream ids are odd when it is the client. */
  function PeerParity(server: bool): nat {
    if server then 1 else 0
  }

  // -------------------------------------------------------------------------
  // Steps

  datatype Action =
    // Serve
    | Read(frame: Frame)  // ReadFrame and the choice of a queue
    | Stop                // ReadFrame fails
    | Add                 // addStreamFrame
    | Push
    | CloseChan           // close(s.closeChan)
    | AllExited           // wg.Wait returns
    | HandleGoAway
    | BeginSweep
    | SweepOne(id: Id)
    | EndSweep
    // the queue w, the goroutine that drains it, and its frame handler
    | Drain(w: Index)
    | Pop(w: Index)
    | Exit(w: Index)
    | Advance(w: Index, move: Move)
    // the application and the idle monitor
    | Use(id: Id, use: Use)
    | Create(fin: bool)   // CreateStream up to and including addStream
    | Expire(order: seq<Id>)  // the monitor empties the table; order is that of the old map
    | Close               // Connection.Close

  predicate IsSyn(f: Frame) {
    f.OnStream? && f.content.Syn?
  }

  /** What can be read from the wire: any frame, with a priority of 3 bits. */
  predicate Arrives(f: Frame) {
    IsSyn(f) ==> f.content.priority <= LEAST_URGENT
  }

  function IdOf(f: Frame): Id {
    if f.OnStream? then f.id else 0
  }

  /** The goroutine of an expiry is at this statement of resetStream, for this stream. */
  predicate HasTurn(es: seq<Expiry>, x: Id, u: Use)
    requires OfExpiry(u)
  {
    && u.k < |es| && es[u.k].queue != [] && es[u.k].queue[0] == x
    && match u
       case ExpiryShut(_) => es[u.k].stage.ToShut?
       case ExpiryFinish(_) => es[u.k].stage.ToFinish?
       case _ => es[u.k].stage.ToWrite?
  }

  /** The goroutine after its step: no RST_STREAM is written for a stream that was finished. */
  function Served(e: Expiry, u: Use, st: Stream): Expiry
    requires e.queue != []
  {
    if u.ExpiryShut? then e.(stage := ToFinish)
    else if u.ExpiryFinish? && !st.finished then e.(stage := ToWrite)
    else Expiry(e.queue[1..], ToShut)
  }

  function Listed(s: State): set<Id> {
    set x | x in s.streams && s.streams[x].listed
  }

  predicate Enabled(s: State, a: Action) {
    match a
    case Read(f) => s.reader.Reading? && Arrives(f)
    case Stop => s.reader.Reading?
    case Add => s.reader.Adding?
    case Push => s.reader.Pushing? && |s.lanes[s.reader.lane].queue| < QUEUE_SIZE
    case CloseChan => s.reader.Closing?
    case AllExited => s.reader.Waiting? && forall w: Index :: s.lanes[w].worker.Exited?
    case HandleGoAway => s.reader.GoingAway?
    case BeginSweep => s.reader.Locking?
    case SweepOne(x) => s.reader.Sweeping? && x in s.reader.todo
    case EndSweep => s.reader.Sweeping? && s.reader.todo == {}
    case Drain(_) => s.closed
    case Pop(w) => s.lanes[w].worker.Idle? && s.lanes[w].queue != []
    case Exit(w) => s.lanes[w].worker.Idle? && s.lanes[w].queue == [] && s.lanes[w].drained
    case Advance(w, m) =>
      var worker := s.lanes[w].worker;
      worker.Busy? && CanAdvance(worker.frame, worker.stage, At(s, IdOf(worker.frame)), m)
    case Use(x, u) =>
      && CanUse(At(s, x), u)
      && (u.CloseRemove? || u.ResetRemove? ==> !s.reader.Sweeping?)
      && (OfExpiry(u) ==> HasTurn(s.expiries, x, u))
    case Create(_) => Session.Allocate(s.next).Some? && !s.reader.Sweeping?
    case Expire(order) => !s.reader.Sweeping? && multiset(order) == multiset(Listed(s))
    case Close => true
  }

  /** What Serve does with a frame: turn is the lane whose turn it is, st the stream with the id
      of the frame. */
  function Route(f: Frame, turn: Index, received: Id, goneAway: bool, st: Stream): Reader {
    match f
    case GoAway => Closing(true)
    case Ping => Pushing(f, 0, turn)
    case Other => Pushing(f, LEAST_URGENT, turn)
    case OnStream(id, content, _) =>
      if !content.Syn? then Pushing(f, PriorityOf(st), LaneOf(id))
      else if Session.Accept(received, goneAway, id).Some? then Adding(f) else Reading
  }

  function Classify(s: State, f: Frame): Reader {
    Route(f, s.turn, s.received, s.goneAway, At(s, IdOf(f)))
  }

  /** The next id to be accepted from the peer, behind the frame. */
  function Bumped(received: Id, goneAway: bool, f: Frame): Id {
    if !IsSyn(f) then received
    else
      match Session.Accept(received, goneAway, f.id)
      case Some(next) => next
      case None => received
  }

  function Received(s: State, f: Frame): Id {
    Bumped(s.received, s.goneAway, f)
  }

  function Turned(turn: Index, f: Frame): Index {
    if f.Ping? || f.Other? then (turn + 1) % FRAME_WORKERS else turn
  }

  predicate IsMine(f: Frame, x: Id) {
    f.OnStream? && f.id == x
  }

  /** The frames of stream x, in order. */
  function Mine(frames: seq<Frame>, x: Id): seq<Frame> {
    if frames == [] then []
    else
      var last := frames[|frames| - 1];
      Mine(frames[..|frames| - 1], x) + (if IsMine(last, x) then [last] else [])
  }

  /** A frame is queued in front of a different frame of its stream. */
  predicate Overtakes(q: seq<Q.Item<Frame>>, f: Frame, priority: uint8) {
    f.OnStream? && exists e | e in q :: IsMine(e.frame, f.id) && priority < e.priority && e.frame != f
  }

  function Pushed(l: Lane, f: Frame, priority: uint8): Lane {
    l.(queue := Q.Insert(l.queue, Q.Item(f, priority)))
  }

  function Popped(l: Lane): Lane
    requires l.queue != []
  {
    l.(queue := l.queue[1..], worker := Busy(l.queue[0].frame, Lookup))
  }

  /** The lane after its handler, at f, goes on to the next stage or returns. */
  function Advanced(l: Lane, f: Frame, next: Option<Stage>): Lane {
    l.(worker := if next.Some? then Busy(f, next.value) else Idle,
       handled := if next.Some? then l.handled else l.handled + [f])
  }

  function Apply(s: State, a: Action): State
    requires Enabled(s, a)
  {
    match a
    case Read(f) =>
      s.(reader := Classify(s, f), read := s.read + InHand(Classify(s, f)),
         turn := Turned(s.turn, f), received := Received(s, f))
    case Stop => s.(reader := Closing(false))
    case Add =>
      var f := s.reader.syn;
      s.(reader := Pushing(f, f.content.priority, LaneOf(f.id)),
         streams := s.streams[f.id := Accepted(f, Mine(s.read, f.id) == [f])])
    case Push =>
      var Pushing(f, priority, w) := s.reader;
      s.(reader := Reading, lanes := s.lanes[w := Pushed(s.lanes[w], f, priority)],
         overtaken := if Overtakes(s.lanes[w].queue, f, priority) then s.overtaken + {IdOf(f)} else s.overtaken)
    case CloseChan => s.(reader := Waiting(s.reader.goAway), closed := true)
    case AllExited => s.(reader := if s.reader.goAway then GoingAway else Locking)
    case HandleGoAway => s.(reader := Locking, goneAway := true)
    case BeginSweep => s.(reader := Sweeping(Listed(s)))
    case SweepOne(x) =>
      s.(reader := Sweeping(s.reader.todo - {x}), streams := s.streams[x := Shut(At(s, x))])
    case EndSweep =>
      s.(reader := Done, streams := map x | x in s.streams :: s.streams[x].(listed := false))
    case Drain(w) => s.(lanes := s.lanes[w := s.lanes[w].(drained := true)])
    case Pop(w) => s.(lanes := s.lanes[w := Popped(s.lanes[w])])
    case Exit(w) => s.(lanes := s.lanes[w := s.lanes[w].(worker := Exited)])
    case Advance(w, m) =>
      var Busy(f, stage) := s.lanes[w].worker;
      var st := At(s, IdOf(f));
      s.(lanes := s.lanes[w := Advanced(s.lanes[w], f, NextStage(f, stage, st, m))],
         streams := if f.OnStream? then s.streams[f.id := Handled(f, stage, st, m)] else s.streams)
    case Use(x, u) =>
      s.(streams := s.streams[x := Used(At(s, x), u)],
         expiries := if OfExpiry(u) then s.expiries[u.k := Served(s.expiries[u.k], u, At(s, x))] else s.expiries)
    case Create(fin) =>
      var (id, next) := Session.Allocate(s.next).value;
      s.(next := next, streams := s.streams[id := Created(fin, Mine(s.read, id) == [])])
    case Expire(order) =>
      s.(streams := map x | x in s.streams :: Expired(s.streams[x]), expiries := s.expiries + [Expiry(order, ToShut)])
    case Close => s.(goneAway := true)
  }

  /** The state after a run; None if one of its steps was not possible. */
  function Run(server: bool, run: seq<Action>): (r: Option<State>)
    ensures r.Some? ==> r.value.server == server
  {
    if run == [] then Some(Init(server))
    else
      var before := Run(server, run[..|run| - 1]);
      if before.Some? && Enabled(before.value, run[|run| - 1])
      then Some(Apply(before.value, run[|run| - 1])) else None
  }

  /** The step does not add a stream under the id of an earlier one. */
  predicate Fresh(s: State, a: Action) {
    && (a.Add? && s.reader.Adding? ==> !At(s, s.reader.syn.id).registered)
    && (a.Create? ==> !At(s, s.next).registered)
  }

  /** No stream is added under the id of an earlier one. */
  ghost predicate FreshRun(server: bool, run: seq<Action>) {
    run != [] ==>
      var before := run[..|run| - 1];
      FreshRun(server, before) && (Run(server, before).Some? ==> Fresh(Run(server, before).value, run[|run| - 1]))
  }

  /** The peer opens its streams under ids of its own parity, as one that runs this code does. */
  predicate Polite(server: bool, a: Action) {
    a.Read? && IsSyn(a.frame) ==> a.frame.id % 2 == PeerParity(server)
  }

  ghost predicate PoliteRun(server: bool, run: seq<Action>) {
    forall a | a in run :: Polite(server, a)
  }
}
