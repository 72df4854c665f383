/** PING, section 2.6.5 of SPDY/3, between two endpoints that both run Connection.Ping and
    handlePingFrame of connection.go. */
module Ping {
  import opened Bytes
  import opened Options

  const TWO_30: nat := 0x4000_0000

  // -------------------------------------------------------------------------
  // The ids of successive pings

  /** How Ping advances pingId. */
  function NextPingId(id: uint32): uint32 {
    if id > 0x7ffffffe then id - 0x7ffffffe else id + 2
  }

  /** The id of draw number k of an endpoint that starts with id 1 or 2. */
  function IdOfDraw(start: uint32, k: nat): uint32 {
    if k == 0 then start else NextPingId(IdOfDraw(start, k - 1))
  }

  ghost predicate IsStart(start: uint32) { start == 1 || start == 2 }

  lemma ModSuccessor(k: nat)
    ensures (k + 1) % TWO_30 == if k % TWO_30 == TWO_30 - 1 then 0 else k % TWO_30 + 1
  {
    var q, r := k / TWO_30, k % TWO_30;
    assert k == TWO_30 * q + r;
    if r == TWO_30 - 1 {
      assert k + 1 == TWO_30 * (q + 1);
    } else {
      assert k + 1 == TWO_30 * q + (r + 1);
    }
  }

  lemma ModDistinct(j: nat, k: nat)
    requires j < k < j + TWO_30
    ensures j % TWO_30 != k % TWO_30
  {
    assert j == TWO_30 * (j / TWO_30) + j % TWO_30;
    assert k == TWO_30 * (k / TWO_30) + k % TWO_30;
  }

  lemma {:induction false} IdOfDrawClosed(start: uint32, k: nat)
    requires IsStart(start)
    ensures IdOfDraw(start, k) == start + 2 * (k % TWO_30)
  {
    if 0 < k {
      IdOfDrawClosed(start, k - 1);
      ModSuccessor(k - 1);
    }
  }

  lemma IdOfDrawParity(start: uint32, k: nat)
    requires IsStart(start)
    ensures IdOfDraw(start, k) != 0 && IdOfDraw(start, k) % 2 == start % 2
  {
    IdOfDrawClosed(start, k);
  }

  /** The ids keep the parity of the first one and are never 0, and an id comes back after
      2^30 draws, not earlier. */
  lemma IdsCycle(start: uint32, j: nat, k: nat)
    requires IsStart(start)
    ensures IdOfDraw(start, j) != 0 && IdOfDraw(start, j) % 2 == start % 2
    ensures IdOfDraw(start, j) == IdOfDraw(start, k) <==> j % TWO_30 == k % TWO_30
    ensures j < k < j + TWO_30 ==> IdOfDraw(start, j) != IdOfDraw(start, k)
  {
    IdOfDrawClosed(start, j);
    IdOfDrawClosed(start, k);
    IdOfDrawParity(start, j);
    if j < k < j + TWO_30 { ModDistinct(j, k); }
  }

  // -------------------------------------------------------------------------
  // An endpoint and its steps

  /** Each Ping call registers a channel of its own; draw d is the d-th call to register. Frames
      under way to the endpoint are told apart by how they were made, which their receiver
      cannot see. */
  datatype Endpoint = Endpoint(
    start: uint32,
    pingId: uint32,
    read: multiset<uint32>,      // ids that a Ping call has read but not registered
    ids: seq<uint32>,            // the id of each draw
    chans: map<uint32, nat>,     // pingChans: the draw whose channel is registered for an id
    closes: seq<nat>,            // how often the channel of each draw was closed
    toWrite: multiset<uint32>,   // registered, the PING frame not yet written
    pings: multiset<uint32>,     // PINGs of the peer under way to this endpoint
    echoes: multiset<uint32>,    // echoes of own PINGs under way to this endpoint
    echoing: multiset<uint32>,   // workers about to write a frame back
    closing: multiset<nat>,      // workers about to close the channel of a draw
    clash: bool)                 // an id was registered while it was in use

  function Fresh(start: uint32): Endpoint {
    Endpoint(start, start, multiset{}, [], map[], [], multiset{}, multiset{}, multiset{}, multiset{},
             multiset{}, false)
  }

  /** The frames and workers that carry an id of endpoint x, up to the lookup of its channel. */
  function Carried(x: Endpoint, y: Endpoint, id: uint32): nat {
    x.toWrite[id] + y.pings[id] + y.echoing[id] + x.echoes[id]
  }

  ghost predicate InUse(x: Endpoint, y: Endpoint, id: uint32) {
    || id in x.chans
    || Carried(x, y, id) > 0
    || exists d | d in x.closing :: d < |x.ids| && x.ids[d] == id
  }

  datatype Action =
    | ReadId                              // pid := s.pingId, outside the lock
    | Register(pid: uint32)               // the rest of the draw, under pingLock
    | Write(pid: uint32, ok: bool)        // the PING frame goes out, or the write fails
    | Receive(id: uint32, echo: bool)     // handlePingFrame up to its decision
    | WriteEcho(id: uint32, ok: bool)
    | CloseChan(draw: nat)
    | Return(pid: uint32)                 // Ping returns and deletes pingChans[pid]

  ghost predicate Enabled(x: Endpoint, a: Action) {
    match a
    case ReadId => true
    case Register(pid) => pid in x.read
    case Write(pid, _) => pid in x.toWrite
    case Receive(id, echo) => if echo then id in x.echoes else id in x.pings
    case WriteEcho(id, _) => id in x.echoing
    case CloseChan(d) => d in x.closing && d < |x.closes|
    case Return(pid) => pid in x.chans
  }

  /** The step of endpoint x whose peer is y. The receiver of a frame decides by parity alone. */
  ghost function Act(x: Endpoint, y: Endpoint, a: Action): (Endpoint, Endpoint)
    requires Enabled(x, a)
  {
    match a
    case ReadId => (x.(read := x.read + multiset{x.pingId}), y)
    case Register(pid) =>
      (x.(read := x.read - multiset{pid},
          clash := x.clash || InUse(x, y, pid),
          pingId := NextPingId(x.pingId),
          ids := x.ids + [pid],
          closes := x.closes + [0],
          chans := x.chans[pid := |x.ids|],
          toWrite := x.toWrite + multiset{pid}), y)
    case Write(pid, ok) =>
      (x.(toWrite := x.toWrite - multiset{pid}),
       if ok then y.(pings := y.pings + multiset{pid}) else y)
    case Receive(id, echo) =>
      var x1 := if echo then x.(echoes := x.echoes - multiset{id}) else x.(pings := x.pings - multiset{id});
      (if x.pingId % 2 != id % 2 then x1.(echoing := x.echoing + multiset{id})
       else if id in x.chans then x1.(closing := x.closing + multiset{x.chans[id]})
       else x1, y)
    case WriteEcho(id, ok) =>
      (x.(echoing := x.echoing - multiset{id}),
       if ok then y.(echoes := y.echoes + multiset{id}) else y)
    case CloseChan(d) =>
      (x.(closing := x.closing - multiset{d}, closes := x.closes[d := x.closes[d] + 1]), y)
    case Return(pid) => (x.(chans := x.chans - {pid}), y)
  }

  datatype State = State(client: Endpoint, server: Endpoint)

  datatype Event = Event(byClient: bool, action: Action)

  ghost function Step(s: State, e: Event): Option<State> {
    if e.byClient then
      if !Enabled(s.client, e.action) then None
      else
        var r := Act(s.client, s.server, e.action);
        Some(State(r.0, r.1))
    else
      if !Enabled(s.server, e.action) then None
      else
        var r := Act(s.server, s.client, e.action);
        Some(State(r.1, r.0))
  }

  /** The state after a run, if every step of it is enabled in turn. */
  ghost function Run(events: seq<Event>): Option<State> {
    if events == [] then Some(State(Fresh(1), Fresh(2)))
    else
      var s := Run(events[..|events| - 1]);
      if s.None? then None else Step(s.value, events[|events| - 1])
  }

  // -------------------------------------------------------------------------
  // The invariant: what endpoint x, with peer y, can rely on for its own pings

  /** All ids are of the parity of start. */
  ghost predicate Alike(ids: multiset<uint32>, start: uint32) {
    forall id | id in ids :: id % 2 == start % 2
  }

  ghost predicate Parities(x: Endpoint, y: Endpoint) {
    && IsStart(x.start) && x.pingId % 2 == x.start % 2
    && Alike(x.read, x.start) && Alike(x.toWrite, x.start) && Alike(x.echoes, x.start)
    && Alike(y.pings, x.start) && Alike(y.echoing, x.start)
  }

  ghost predicate Draws(x: Endpoint) {
    && |x.closes| == |x.ids|
    && (forall d | d in x.closing :: d < |x.ids|)
    && (forall id | id in x.chans :: x.chans[id] < |x.ids| && x.ids[x.chans[id]] == id)
  }

  /** Each draw has at most one frame, worker or closing to its name. */
  ghost predicate Single(x: Endpoint, y: Endpoint)
    requires Draws(x)
  {
    && (forall id :: Carried(x, y, id) <= 1)
    && (forall d | 0 <= d < |x.ids| :: x.closing[d] + x.closes[d] <= 1)
    && (forall d | d in x.closing :: Carried(x, y, x.ids[d]) == 0)
    && (forall id | id in x.chans :: Carried(x, y, id) + x.closes[x.chans[id]] <= 1)
    && (forall c, d | c in x.closing && d in x.closing && x.ids[c] == x.ids[d] :: c == d)
    && (forall d | d in x.closing && x.ids[d] in x.chans :: x.chans[x.ids[d]] == d)
  }

  ghost predicate Inv(x: Endpoint, y: Endpoint) {
    && Parities(x, y) && Draws(x)
    && (!x.clash ==> Single(x, y))
  }

  /** x can do a, and both endpoints keep to their own parity. */
  ghost predicate Ready(x: Endpoint, y: Endpoint, a: Action) {
    Parities(x, y) && Parities(y, x) && y.start != x.start && Draws(x) && Enabled(x, a)
  }

  ghost predicate Before(x: Endpoint, y: Endpoint, a: Action) {
    Ready(x, y, a) && Inv(x, y)
  }

  /** Single carries over to a state in which nothing of x is more under way or closed. */
  lemma SingleShrinks(x: Endpoint, y: Endpoint, x1: Endpoint, y1: Endpoint)
    requires Draws(x) && Single(x, y) && Draws(x1)
    requires forall id :: Carried(x1, y1, id) <= Carried(x, y, id)
    requires x1.ids == x.ids && x1.closing == x.closing && x1.closes == x.closes
    requires x1.chans.Keys <= x.chans.Keys && forall id | id in x1.chans :: x1.chans[id] == x.chans[id]
    ensures Single(x1, y1)
  {}

  lemma OwnRegister(x: Endpoint, y: Endpoint, pid: uint32)
    requires Before(x, y, Register(pid)) && !x.clash && !InUse(x, y, pid)
    ensures var r := Act(x, y, Register(pid)); Draws(r.0) && Single(r.0, r.1)
  {
    hide Parities, Carried;
    var x1 := Act(x, y, Register(pid)).0;
    RegisterCarries(x, y, pid);
    forall d | d in x1.closing ensures x1.ids[d] == x.ids[d] && x.ids[d] != pid {}
    assert |x.ids| !in x.closing;
  }

  lemma RegisterCarries(x: Endpoint, y: Endpoint, pid: uint32)
    requires Enabled(x, Register(pid))
    ensures forall id ::
              Carried(Act(x, y, Register(pid)).0, y, id) == Carried(x, y, id) + (if id == pid then 1 else 0)
  {}

  /** An echo is taken off the wire; its worker looks up the channel of the id. */
  lemma OwnReceiveEcho(x: Endpoint, y: Endpoint, id: uint32)
    requires Before(x, y, Receive(id, true)) && !x.clash
    ensures var r := Act(x, y, Receive(id, true)); Draws(r.0) && Single(r.0, r.1)
  {
    var x1 := Act(x, y, Receive(id, true)).0;
    assert Carried(x, y, id) == 1;
    forall i ensures Carried(x1, y, i) == Carried(x, y, i) - (if i == id then 1 else 0) {}
    if id in x.chans {
      LookedUp(x, y, x1, id);
    } else {
      SingleShrinks(x, y, x1, y);
    }
  }

  lemma LookedUp(x: Endpoint, y: Endpoint, x1: Endpoint, id: uint32)
    requires Draws(x) && Single(x, y) && Carried(x, y, id) == 1 && id in x.chans
    requires forall i :: Carried(x1, y, i) == Carried(x, y, i) - (if i == id then 1 else 0)
    requires x1.closing == x.closing + multiset{x.chans[id]}
    requires x1.ids == x.ids && x1.closes == x.closes && x1.chans == x.chans
    ensures Draws(x1) && Single(x1, y)
  {
    assert x.closes[x.chans[id]] == 0 && x.chans[id] !in x.closing;
    forall c | c in x.closing ensures x.ids[c] != id {}
  }

  lemma OwnReceivePing(x: Endpoint, y: Endpoint, id: uint32)
    requires Before(x, y, Receive(id, false)) && !x.clash
    ensures var r := Act(x, y, Receive(id, false)); Draws(r.0) && Single(r.0, r.1)
  {
    var x1 := Act(x, y, Receive(id, false)).0;
    assert x.pingId % 2 != id % 2;
    forall i ensures Carried(x1, y, i) == Carried(x, y, i) {}
    SingleShrinks(x, y, x1, y);
  }

  lemma OwnCloseChan(x: Endpoint, y: Endpoint, d: nat)
    requires Draws(x) && Single(x, y) && Enabled(x, CloseChan(d))
    ensures var r := Act(x, y, CloseChan(d)); Draws(r.0) && Single(r.0, r.1)
  {
    var x1 := Act(x, y, CloseChan(d)).0;
    assert x1.toWrite == x.toWrite && x1.echoes == x.echoes;
    ClosedOnce(x, y, x1, d);
  }

  lemma ClosedOnce(x: Endpoint, y: Endpoint, x1: Endpoint, d: nat)
    requires Draws(x) && Single(x, y) && d in x.closing
    requires x1.closing == x.closing - multiset{d} && x1.closes == x.closes[d := x.closes[d] + 1]
    requires x1.ids == x.ids && x1.chans == x.chans
    requires x1.toWrite == x.toWrite && x1.echoes == x.echoes
    ensures Draws(x1) && Single(x1, y)
  {
    hide Carried;
    SameCarried(x, y, x1);
    NoLongerClosing(x, y, d);
    ClosedCounts(x, x1, d);
    forall i | i in x1.chans ensures Carried(x1, y, i) + x1.closes[x1.chans[i]] <= 1 { ClosedChan(x, y, x1, d, i); }
    forall c | c in x1.closing ensures c in x.closing && Carried(x1, y, x1.ids[c]) == 0 {}
  }

  lemma NoLongerClosing(x: Endpoint, y: Endpoint, d: nat)
    requires Draws(x) && Single(x, y) && d in x.closing
    ensures x.closing[d] == 1 && x.closes[d] == 0
  {
    hide Carried;
    assert x.closing[d] + x.closes[d] <= 1;
  }

  lemma SameCarried(x: Endpoint, y: Endpoint, x1: Endpoint)
    requires x1.toWrite == x.toWrite && x1.echoes == x.echoes
    ensures forall i :: Carried(x1, y, i) == Carried(x, y, i)
  {}

  lemma ClosedChan(x: Endpoint, y: Endpoint, x1: Endpoint, d: nat, i: uint32)
    requires Draws(x) && Single(x, y) && d in x.closing && i in x.chans && Carried(x1, y, i) == Carried(x, y, i)
    requires x1.closes == x.closes[d := x.closes[d] + 1] && x1.chans == x.chans && x.closes[d] == 0
    ensures Carried(x1, y, i) + x1.closes[x1.chans[i]] <= 1
  {
    hide Carried;
    if x.chans[i] == d { assert x.ids[d] == i; }
  }

  lemma ClosedCounts(x: Endpoint, x1: Endpoint, d: nat)
    requires d in x.closing && d < |x.ids| && |x.closes| == |x.ids|
    requires forall c | 0 <= c < |x.ids| :: x.closing[c] + x.closes[c] <= 1
    requires x1.closing == x.closing - multiset{d} && x1.closes == x.closes[d := x.closes[d] + 1] && x1.ids == x.ids
    ensures forall c | 0 <= c < |x1.ids| :: x1.closing[c] + x1.closes[c] <= 1
  {
    forall c | 0 <= c < |x1.ids| ensures x1.closing[c] + x1.closes[c] <= 1 {
      if c != d { assert x1.closing[c] == x.closing[c] && x1.closes[c] == x.closes[c]; }
    }
  }

  lemma OwnOther(x: Endpoint, y: Endpoint, a: Action)
    requires Before(x, y, a) && !x.clash
    requires !a.Register? && !a.Receive? && !a.CloseChan?
    ensures var r := Act(x, y, a); Draws(r.0) && Single(r.0, r.1)
  {
    var (x1, y1) := Act(x, y, a);
    forall i ensures Carried(x1, y1, i) <= Carried(x, y, i) {}
    SingleShrinks(x, y, x1, y1);
  }

  lemma AlikeMoves(from: multiset<uint32>, to: multiset<uint32>, id: uint32, start: uint32)
    requires Alike(from, start)
    ensures Alike(from - multiset{id}, start)
    ensures Alike(to, start) && id % 2 == start % 2 ==> Alike(to + multiset{id}, start)
  {}

  lemma ReceiveEchoParities(x: Endpoint, y: Endpoint, id: uint32)
    requires Ready(x, y, Receive(id, true))
    ensures var r := Act(x, y, Receive(id, true)); Parities(r.0, r.1) && Parities(r.1, r.0) && Draws(r.0)
  {
    AlikeMoves(x.echoes, x.echoes, id, x.start);
    assert id % 2 == x.pingId % 2;
  }

  lemma ReceivePingParities(x: Endpoint, y: Endpoint, id: uint32)
    requires Ready(x, y, Receive(id, false))
    ensures var r := Act(x, y, Receive(id, false)); Parities(r.0, r.1) && Parities(r.1, r.0) && Draws(r.0)
  {
    AlikeMoves(x.pings, x.echoing, id, y.start);
    assert id % 2 != x.pingId % 2;
  }

  lemma RegisterParities(x: Endpoint, y: Endpoint, pid: uint32)
    requires Ready(x, y, Register(pid))
    ensures var r := Act(x, y, Register(pid)); Parities(r.0, r.1) && Parities(r.1, r.0) && Draws(r.0)
  {}

  lemma WriteParities(x: Endpoint, y: Endpoint, a: Action)
    requires Ready(x, y, a) && (a.Write? || a.WriteEcho?)
    ensures var r := Act(x, y, a); Parities(r.0, r.1) && Parities(r.1, r.0) && Draws(r.0)
  {
    match a {
      case Write(pid, _) => AlikeMoves(x.toWrite, y.pings, pid, x.start);
      case WriteEcho(id, _) => AlikeMoves(x.echoing, y.echoes, id, y.start);
    }
  }

  lemma OtherParities(x: Endpoint, y: Endpoint, a: Action)
    requires Ready(x, y, a) && (a.ReadId? || a.CloseChan? || a.Return?)
    ensures var r := Act(x, y, a); Parities(r.0, r.1) && Parities(r.1, r.0) && Draws(r.0)
  {}

  lemma ParitiesStep(x: Endpoint, y: Endpoint, a: Action)
    requires Ready(x, y, a)
    ensures var r := Act(x, y, a); Parities(r.0, r.1) && Parities(r.1, r.0) && Draws(r.0)
  {
    match a {
      case Receive(id, echo) => if echo { ReceiveEchoParities(x, y, id); } else { ReceivePingParities(x, y, id); }
      case Register(pid) => RegisterParities(x, y, pid);
      case Write(_, _) => WriteParities(x, y, a);
      case WriteEcho(_, _) => WriteParities(x, y, a);
      case _ => OtherParities(x, y, a);
    }
  }

  lemma OwnStep(x: Endpoint, y: Endpoint, a: Action)
    requires Before(x, y, a)
    ensures Inv(Act(x, y, a).0, Act(x, y, a).1)
  {
    ParitiesStep(x, y, a);
    if !Act(x, y, a).0.clash {
      match a {
        case Register(pid) => OwnRegister(x, y, pid);
        case Receive(id, echo) => if echo { OwnReceiveEcho(x, y, id); } else { OwnReceivePing(x, y, id); }
        case CloseChan(d) => OwnCloseChan(x, y, d);
        case _ => OwnOther(x, y, a);
      }
    }
  }

  lemma PeerCarries(x: Endpoint, y: Endpoint, a: Action, i: uint32)
    requires Enabled(y, a) && Parities(y, x)
    ensures Carried(Act(y, x, a).1, Act(y, x, a).0, i) <= Carried(x, y, i)
  {
    var y1, x1 := Act(y, x, a).0, Act(y, x, a).1;
    match a {
      case Receive(id, echo) => PeerReceives(x, y, id, echo, i);
      case WriteEcho(id, ok) =>
        assert y1.echoing[i] + x1.echoes[i] <= y.echoing[i] + x.echoes[i];
      case _ =>
    }
  }

  lemma PeerReceives(x: Endpoint, y: Endpoint, id: uint32, echo: bool, i: uint32)
    requires Enabled(y, Receive(id, echo)) && Parities(y, x)
    ensures var (y1, x1) := Act(y, x, Receive(id, echo));
            y1.pings[i] + y1.echoing[i] <= y.pings[i] + y.echoing[i] && x1 == x
  {
    assert echo ==> id % 2 == y.pingId % 2;
  }

  lemma PeerStep(x: Endpoint, y: Endpoint, a: Action)
    requires Before(y, x, a) && Inv(x, y)
    ensures Inv(Act(y, x, a).1, Act(y, x, a).0)
  {
    ParitiesStep(y, x, a);
    var y1, x1 := Act(y, x, a).0, Act(y, x, a).1;
    PeerFrame(x, y, a);
    if !x.clash {
      forall i ensures Carried(x1, y1, i) <= Carried(x, y, i) { PeerCarries(x, y, a, i); }
      SingleShrinks(x, y, x1, y1);
    }
  }

  lemma PeerFrame(x: Endpoint, y: Endpoint, a: Action)
    requires Enabled(y, a)
    ensures var x1 := Act(y, x, a).1;
            && x1.ids == x.ids && x1.closing == x.closing && x1.closes == x.closes
            && x1.chans == x.chans && x1.clash == x.clash
  {}

  ghost predicate Both(s: State) {
    && Inv(s.client, s.server) && Inv(s.server, s.client)
    && s.client.start == 1 && s.server.start == 2
  }

  lemma StepKeeps(s: State, e: Event)
    requires Both(s) && Step(s, e).Some?
    ensures Both(Step(s, e).value)
  {
    var x, y := if e.byClient then s.client else s.server, if e.byClient then s.server else s.client;
    OwnStep(x, y, e.action);
    PeerStep(y, x, e.action);
    StartFrame(x, y, e.action);
  }

  lemma StartFrame(x: Endpoint, y: Endpoint, a: Action)
    requires Enabled(x, a)
    ensures Act(x, y, a).0.start == x.start && Act(x, y, a).1.start == y.start
  {}

  lemma {:induction false} RunKeeps(events: seq<Event>)
    requires Run(events).Some?
    ensures Both(Run(events).value)
  {
    if events != [] {
      RunKeeps(events[..|events| - 1]);
      StepKeeps(Run(events[..|events| - 1]).value, events[|events| - 1]);
    }
  }

  // -------------------------------------------------------------------------
  // Main results

  /** In every run of two endpoints, the channel of a Ping call is closed at most once and at
      most one frame or worker carries an id, as long as no id was registered while in use. */
  lemma ChannelsCloseOnce(events: seq<Event>, d: nat)
    requires Run(events).Some?
    ensures var s := Run(events).value;
            && (!s.client.clash && d < |s.client.closes| ==> s.client.closes[d] <= 1)
            && (!s.server.clash && d < |s.server.closes| ==> s.server.closes[d] <= 1)
            && (forall id :: !s.client.clash ==> Carried(s.client, s.server, id) <= 1)
            && (forall id :: !s.server.clash ==> Carried(s.server, s.client, id) <= 1)
  {
    RunKeeps(events);
  }

  /** The draws so far were made one at a time. */
  ghost predicate Serial(x: Endpoint) {
    && x.pingId == IdOfDraw(x.start, |x.ids|)
    && forall k | 0 <= k < |x.ids| :: x.ids[k] == IdOfDraw(x.start, k)
  }

  /** When pings draw their ids one at a time and everything in use was drawn within the last
      2^30 - 1 draws, the next id is free: no clash is possible. */
  lemma SerialDrawsDoNotClash(x: Endpoint, y: Endpoint)
    requires IsStart(x.start) && Serial(x)
    requires forall id | InUse(x, y, id) :: exists k | |x.ids| - TWO_30 < k < |x.ids| :: 0 <= k && x.ids[k] == id
    ensures !InUse(x, y, x.pingId)
  {
    if InUse(x, y, x.pingId) {
      var k :| |x.ids| - TWO_30 < k < |x.ids| && 0 <= k && x.ids[k] == x.pingId;
      IdsCycle(x.start, k, |x.ids|);
    }
  }

  lemma SerialStep(x: Endpoint, y: Endpoint, a: Action)
    requires Serial(x) && Enabled(x, a)
    requires a.Register? ==> a.pid == x.pingId
    ensures Serial(Act(x, y, a).0)
  {}

  /** What the frames and workers of an endpoint can still set off. */
  function Work(x: Endpoint): nat {
    5 * |x.toWrite| + 4 * |x.pings| + 3 * |x.echoing| + 2 * |x.echoes| + |x.closing|
  }

  /** Pings do not bounce: apart from a new ping, every step that moves a frame leaves less to
      be done, so one PING causes at most one echo and an echo causes no frame at all. */
  lemma PingsDoNotBounce(s: State, e: Event)
    requires Both(s) && Step(s, e).Some?
    ensures var t := Step(s, e).value;
            LessToDo(Work(s.client) + Work(s.server), Work(t.client) + Work(t.server), e.action)
    ensures e.action.Receive? && e.action.echo ==>
      && Step(s, e).value.client.echoing == s.client.echoing
      && Step(s, e).value.server.echoing == s.server.echoing
  {
    var x, y := if e.byClient then s.client else s.server, if e.byClient then s.server else s.client;
    WorkStep(x, y, e.action);
  }

  ghost predicate LessToDo(before: nat, after: nat, a: Action) {
    match a
    case Register(_) => after == before + 5
    case ReadId => after == before
    case Return(_) => after == before
    case _ => after < before
  }

  lemma WorkStep(x: Endpoint, y: Endpoint, a: Action)
    requires Enabled(x, a) && Parities(x, y) && Parities(y, x) && x.start != y.start
    ensures var r := Act(x, y, a);
            && LessToDo(Work(x) + Work(y), Work(r.0) + Work(r.1), a)
            && (a.Receive? && a.echo ==> r.0.echoing == x.echoing && r.1.echoing == y.echoing)
  {
    var r := Act(x, y, a);
    if a.Receive? {
      ReceiveWork(x, y, a.id, a.echo);
    } else if a.Write? || a.WriteEcho? {
      WriteWork(x, y, a);
    }
  }

  lemma ReceiveWork(x: Endpoint, y: Endpoint, id: uint32, echo: bool)
    requires Enabled(x, Receive(id, echo)) && Parities(x, y) && Parities(y, x) && x.start != y.start
    ensures var r := Act(x, y, Receive(id, echo));
            && Work(r.0) < Work(x) && r.1 == y
            && (echo ==> r.0.echoing == x.echoing)
  {
    if echo {
      assert id % 2 == x.pingId % 2;
      assert |x.echoes - multiset{id}| == |x.echoes| - 1;
    } else {
      assert id % 2 != x.pingId % 2;
      assert |x.pings - multiset{id}| == |x.pings| - 1;
    }
  }

  lemma WriteWork(x: Endpoint, y: Endpoint, a: Action)
    requires Enabled(x, a) && (a.Write? || a.WriteEcho?)
    ensures var r := Act(x, y, a); Work(r.0) + Work(r.1) < Work(x) + Work(y)
  {}

  // -------------------------------------------------------------------------
  // Every PING is echoed once

  function Side(s: State, client: bool): Endpoint {
    if client then s.client else s.server
  }

  /** The step writes a PING frame with this id; or takes one from the wire; or writes one back, or
      fails to. */
  predicate WritesPing(a: Action, id: uint32) {
    a.Write? && a.ok && a.pid == id
  }

  predicate ReceivesPing(a: Action, id: uint32) {
    a.Receive? && !a.echo && a.id == id
  }

  predicate WritesEcho(a: Action, id: uint32) {
    a.WriteEcho? && a.id == id
  }

  /** How many of its PING frames with this id the endpoint has written in the run. */
  function PingsWritten(events: seq<Event>, client: bool, id: uint32): nat {
    if events == [] then 0
    else
      var e := events[|events| - 1];
      PingsWritten(events[..|events| - 1], client, id)
      + (if e.byClient == client && WritesPing(e.action, id) then 1 else 0)
  }

  /** How many it has received, from its peer. */
  function PingsReceived(events: seq<Event>, client: bool, id: uint32): nat {
    if events == [] then 0
    else
      var e := events[|events| - 1];
      PingsReceived(events[..|events| - 1], client, id)
      + (if e.byClient == client && ReceivesPing(e.action, id) then 1 else 0)
  }

  /** How many it has written back. */
  function EchoesWritten(events: seq<Event>, client: bool, id: uint32): nat {
    if events == [] then 0
    else
      var e := events[|events| - 1];
      EchoesWritten(events[..|events| - 1], client, id)
      + (if e.byClient == client && WritesEcho(e.action, id) then 1 else 0)
  }

  /** In every run, for either endpoint and every id: the PINGs that its peer has written are those
      under way and those that it has received, and it writes back each of those once, and no
      other frame. */
  lemma {:induction false} EachPingIsEchoedOnce(events: seq<Event>, client: bool, id: uint32)
    requires Run(events).Some?
    ensures var x := Side(Run(events).value, client);
            && PingsWritten(events, !client, id) == PingsReceived(events, client, id) + x.pings[id]
            && PingsReceived(events, client, id) == EchoesWritten(events, client, id) + x.echoing[id]
  {
    if events != [] {
      var before, e := events[..|events| - 1], events[|events| - 1];
      RunKeeps(before);
      hide Step, Both, WritesPing, ReceivesPing, WritesEcho;
      EachPingIsEchoedOnce(before, client, id);
      PingsMove(Run(before).value, e, client, id);
    }
  }

  /** The PINGs and echoes that a step moves. */
  lemma PingsMove(s: State, e: Event, client: bool, id: uint32)
    requires Both(s) && Step(s, e).Some?
    ensures var x, x1 := Side(s, client), Side(Step(s, e).value, client);
            var own := e.byClient == client;
            var received := if own && ReceivesPing(e.action, id) then 1 else 0;
            && x1.pings[id] + received == x.pings[id] + (if !own && WritesPing(e.action, id) then 1 else 0)
            && x1.echoing[id] + (if own && WritesEcho(e.action, id) then 1 else 0) == x.echoing[id] + received
  {
    var x, y := Side(s, e.byClient), Side(s, !e.byClient);
    hide Act, Enabled, Inv, WritesPing, ReceivesPing, WritesEcho;
    InvParities(x, y);
    InvParities(y, x);
    if e.byClient == client { OwnPings(x, y, e.action, id); } else { PeerPings(x, y, e.action, id); }
  }

  lemma InvParities(x: Endpoint, y: Endpoint)
    requires Inv(x, y)
    ensures Parities(x, y)
  {
    hide Parities, Draws, Single;
  }

  lemma OwnPings(x: Endpoint, y: Endpoint, a: Action, id: uint32)
    requires Enabled(x, a) && Parities(x, y) && Parities(y, x) && x.start != y.start
    ensures var x1 := Act(x, y, a).0;
            var received := if ReceivesPing(a, id) then 1 else 0;
            && x1.pings[id] + received == x.pings[id]
            && x1.echoing[id] + (if WritesEcho(a, id) then 1 else 0) == x.echoing[id] + received
  {
    if a.Receive? { OwnReceives(x, y, a.id, a.echo, id); }
    hide Parities, InUse;
  }

  lemma OwnReceives(x: Endpoint, y: Endpoint, i: uint32, echo: bool, id: uint32)
    requires Enabled(x, Receive(i, echo)) && Parities(x, y) && Parities(y, x) && x.start != y.start
    ensures var x1 := Act(x, y, Receive(i, echo)).0;
            var received := if ReceivesPing(Receive(i, echo), id) then 1 else 0;
            && x1.pings[id] + received == x.pings[id]
            && x1.echoing[id] == x.echoing[id] + received
  {
    assert echo <==> i % 2 == x.pingId % 2;
    hide Parities;
  }

  lemma PeerPings(x: Endpoint, y: Endpoint, a: Action, id: uint32)
    requires Enabled(x, a)
    ensures var y1 := Act(x, y, a).1;
            && y1.pings[id] == y.pings[id] + (if WritesPing(a, id) then 1 else 0)
            && y1.echoing[id] == y.echoing[id]
  {
    hide InUse;
  }
}
