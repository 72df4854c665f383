/** Stream ids and GOAWAY, sections 2.3.2 and 2.6.6 of SPDY/3: the allocation and validation of
    ids and the two ways into shutdown of connection.go, at one endpoint and between two. */
module Session {
  import opened Bytes
  import opened Options

  const MAX_ID := 0x7fff_ffff

  // -------------------------------------------------------------------------
  // The decisions of the source

  /** getNextStreamId: the id and the next id, or none when the ids are used up. */
  function Allocate(next: uint32): Option<(uint32, uint32)> {
    if next > MAX_ID then None else Some((next, next + 2))
  }

  /** checkStreamFrame with validateStreamId: the new receivedStreamId, or none when rejected. */
  function Accept(received: uint32, goneAway: bool, id: uint32): Option<uint32> {
    if goneAway || id > MAX_ID || id < received then None else Some(id + 2)
  }

  /** The LastGoodStreamId that Close computes from receivedStreamId. */
  function LastGood(received: uint32): uint32 {
    if received > 2 then received - 2 else 0
  }

  // -------------------------------------------------------------------------
  // The fields of a connection that these decisions read and write

  class Connection {
    var nextStreamId: uint32
    var receivedStreamId: uint32
    var goneAway: bool
    var hasShutdown: bool

    constructor (server: bool)
      ensures nextStreamId == Fresh(server).sender.next
      ensures receivedStreamId == Fresh(server).receiver.received
      ensures !goneAway && !hasShutdown
    {
      if server {
        nextStreamId, receivedStreamId := 2, 1;
      } else {
        nextStreamId, receivedStreamId := 1, 2;
      }
      goneAway, hasShutdown := false, false;
    }

    /** Returns 0 when the ids are used up, which then stays so. */
    method GetNextStreamId() returns (sid: uint32)
      modifies this`nextStreamId
      ensures match Allocate(old(nextStreamId))
              case None => sid == 0 && nextStreamId == old(nextStreamId)
              case Some((id, next)) => sid == id && nextStreamId == next
    {
      sid := nextStreamId;
      if sid > 0x7fffffff { return 0; }
      nextStreamId := nextStreamId + 2;
    }

    method ValidateStreamId(rid: uint32) returns (ok: bool)
      modifies this`receivedStreamId
      ensures match Accept(old(receivedStreamId), false, rid)
              case None => !ok && receivedStreamId == old(receivedStreamId)
              case Some(received) => ok && receivedStreamId == received
    {
      if rid > 0x7fffffff || rid < receivedStreamId { return false; }
      receivedStreamId := rid + 2;
      return true;
    }

    /** Whether the stream frame is accepted, and whether a reset is sent for it. */
    method CheckStreamFrame(rid: uint32) returns (ok: bool, reset: bool)
      modifies this`receivedStreamId
      ensures match Accept(old(receivedStreamId), goneAway, rid)
              case None => !ok && receivedStreamId == old(receivedStreamId)
              case Some(received) => ok && receivedStreamId == received
      ensures reset == (!ok && !goneAway)
    {
      if goneAway { return false, false; }
      ok := ValidateStreamId(rid);
      reset := !ok;
    }

    /** The critical section with which Close and handleGoAwayFrame begin. */
    method GoAway() returns (first: bool)
      modifies this`goneAway
      ensures first == !old(goneAway) && goneAway
    {
      if goneAway { return false; }
      goneAway := true;
      return true;
    }

    method LastGoodStreamId() returns (last: uint32)
      ensures last == LastGood(receivedStreamId)
    {
      last := 0;
      if receivedStreamId > 2 { last := receivedStreamId - 2; }
    }

    /** The critical section with which shutdown begins. */
    method EnterShutdown() returns (first: bool)
      modifies this`hasShutdown
      ensures first == !old(hasShutdown) && hasShutdown
    {
      if hasShutdown { return false; }
      hasShutdown := true;
      return true;
    }
  }

  // -------------------------------------------------------------------------
  // An endpoint as a state machine

  datatype Frame = Syn(id: uint32) | GoAway(last: uint32)

  /** CreateStream holds nextIdLock from the allocation of an id until its frame is written. */
  datatype Sender = Sender(next: uint32, creating: Option<uint32>, created: seq<uint32>, written: seq<uint32>)

  /** Serve: the SYN_STREAM frames read, accepted, and rejected for their id. */
  datatype Receiver = Receiver(received: uint32, seen: seq<uint32>, accepted: seq<uint32>, rejected: seq<uint32>)

  /** Where a thread in Close is: past its critical section, or about to write its frame. */
  datatype Closer = Marked | Writing(last: uint32)

  /** closers are the threads inside Close, sent the ids of the GOAWAY frames they started to
      write; spawned are the shutdown goroutines that have not taken shutdownLock yet. */
  datatype Closing = Closing(goneAway: bool, closers: map<nat, Closer>, sent: seq<uint32>,
                             spawned: nat, hasShutdown: bool, bodies: nat, chanCloses: nat)

  datatype Endpoint = Endpoint(sender: Sender, receiver: Receiver, closing: Closing,
                               serving: bool, goAway: Option<uint32>, inbox: seq<Frame>)

  function Fresh(server: bool): Endpoint {
    Endpoint(Sender(if server then 2 else 1, None, [], []),
             Receiver(if server then 1 else 2, [], [], []),
             Closing(false, map[], [], 0, false, 0, 0), true, None, [])
  }

  datatype Action =
    | Create                        // CreateStream up to the write; no step when ids are used up
    | WriteSyn(ok: bool)
    | ReadFrame                     // Serve reads and checks the next frame
    | HandleGoAway                  // after the workers have drained their queues
    | CloseEnter(thread: nat)
    | CloseRead(thread: nat)        // reads receivedStreamId, no lock held
    | CloseWrite(thread: nat, ok: bool)
    | ShutdownEnter
    | ShutdownEnd                   // close(s.shutdownChan)

  predicate Enabled(x: Endpoint, a: Action) {
    match a
    case Create => x.sender.creating.None? && Allocate(x.sender.next).Some?
    case WriteSyn(_) => x.sender.creating.Some?
    case ReadFrame => x.serving && x.inbox != []
    case HandleGoAway => x.goAway.Some?
    case CloseEnter(t) => t !in x.closing.closers
    case CloseRead(t) => t in x.closing.closers && x.closing.closers[t].Marked?
    case CloseWrite(t, _) => t in x.closing.closers && x.closing.closers[t].Writing?
    case ShutdownEnter => x.closing.spawned > 0
    case ShutdownEnd => x.closing.bodies > x.closing.chanCloses
  }

  function Check(r: Receiver, goneAway: bool, id: uint32): Receiver {
    var r1 := r.(seen := r.seen + [id]);
    match Accept(r.received, goneAway, id)
    case Some(received) => r1.(received := received, accepted := r.accepted + [id])
    case None => if goneAway then r1 else r1.(rejected := r.rejected + [id])
  }

  /** The closing fields after a step of endpoint x that concerns them. */
  function Close(x: Endpoint, a: Action): Closing
    requires Enabled(x, a)
  {
    var c := x.closing;
    match a
    case HandleGoAway => if c.goneAway then c else c.(goneAway := true, spawned := c.spawned + 1)
    case CloseEnter(t) =>
      if c.goneAway then c else c.(goneAway := true, closers := c.closers[t := Marked])
    case CloseRead(t) => c.(closers := c.closers[t := Writing(LastGood(x.receiver.received))])
    case CloseWrite(t, _) =>
      c.(closers := c.closers - {t}, sent := c.sent + [c.closers[t].last], spawned := c.spawned + 1)
    case ShutdownEnter =>
      if c.hasShutdown then c.(spawned := c.spawned - 1)
      else c.(spawned := c.spawned - 1, hasShutdown := true, bodies := c.bodies + 1)
    case ShutdownEnd => c.(chanCloses := c.chanCloses + 1)
    case _ => c
  }

  /** The endpoint after its own step, frames it sends aside. */
  function Act(x: Endpoint, a: Action): Endpoint
    requires Enabled(x, a)
  {
    var s := x.sender;
    match a
    case Create =>
      var (id, next) := Allocate(s.next).value;
      x.(sender := s.(next := next, creating := Some(id), created := s.created + [id]))
    case WriteSyn(ok) =>
      x.(sender := s.(creating := None, written := if ok then s.written + [s.creating.value] else s.written))
    case ReadFrame =>
      (match x.inbox[0]
       case Syn(id) => x.(inbox := x.inbox[1..], receiver := Check(x.receiver, x.closing.goneAway, id))
       case GoAway(last) => x.(inbox := x.inbox[1..], serving := false, goAway := Some(last)))
    case HandleGoAway => x.(closing := Close(x, a), goAway := None)
    case _ => x.(closing := Close(x, a))
  }

  /** The frames that the step writes. */
  function Sends(x: Endpoint, a: Action): seq<Frame>
    requires Enabled(x, a)
  {
    match a
    case WriteSyn(true) => [Syn(x.sender.creating.value)]
    case CloseWrite(t, true) => [GoAway(x.closing.closers[t].last)]
    case _ => []
  }

  // -------------------------------------------------------------------------
  // One endpoint, against any peer

  ghost predicate Increasing(s: seq<uint32>) {
    forall i, j | 0 <= i < j < |s| :: s[i] < s[j]
  }

  /** The greatest element of an increasing sequence, 0 if it is empty. */
  function Greatest(s: seq<uint32>): uint32 {
    if s == [] then 0 else s[|s| - 1]
  }

  ghost predicate ReceiverInv(r: Receiver) {
    && Increasing(r.accepted)
    && (forall id | id in r.accepted :: 0 < id <= MAX_ID)
    && (if r.accepted == [] then r.received in {1, 2} else r.received == Greatest(r.accepted) + 2)
  }

  ghost predicate ClosingInv(c: Closing, accepted: seq<uint32>) {
    && |c.closers| + |c.sent| <= 1
    && (|c.closers| + |c.sent| + c.spawned + c.bodies > 0 ==> c.goneAway)
    && (forall t | t in c.closers && c.closers[t].Writing? :: c.closers[t].last == Greatest(accepted))
    && (forall last | last in c.sent :: last == Greatest(accepted))
    && c.bodies == (if c.hasShutdown then 1 else 0)
    && c.chanCloses <= c.bodies
    && c.spawned + c.bodies + |c.closers| <= 1
  }

  ghost predicate Inv(x: Endpoint) {
    ReceiverInv(x.receiver) && ClosingInv(x.closing, x.receiver.accepted)
  }

  lemma LastGoodIsGreatest(r: Receiver)
    requires ReceiverInv(r)
    ensures LastGood(r.received) == Greatest(r.accepted)
    ensures forall id | id in r.accepted :: id <= Greatest(r.accepted)
  {
    if r.accepted != [] { assert Greatest(r.accepted) in r.accepted; }
  }

  lemma CheckKeeps(r: Receiver, goneAway: bool, id: uint32)
    requires ReceiverInv(r)
    ensures ReceiverInv(Check(r, goneAway, id))
    ensures goneAway ==> Check(r, goneAway, id).accepted == r.accepted
  {
    LastGoodIsGreatest(r);
  }

  lemma CloseKeeps(x: Endpoint, a: Action)
    requires Inv(x) && Enabled(x, a)
    ensures ClosingInv(Close(x, a), x.receiver.accepted)
  {
    LastGoodIsGreatest(x.receiver);
    var c := x.closing;
    match a {
      case CloseRead(t) => assert c.closers[t := Writing(0)].Keys == c.closers.Keys;
      case CloseWrite(t, _) => assert (c.closers - {t}).Keys == c.closers.Keys - {t};
      case _ =>
    }
  }

  lemma ActKeeps(x: Endpoint, a: Action)
    requires Inv(x) && Enabled(x, a)
    ensures Inv(Act(x, a))
  {
    CloseKeeps(x, a);
    if a == ReadFrame && x.inbox[0].Syn? {
      CheckKeeps(x.receiver, x.closing.goneAway, x.inbox[0].id);
    }
  }

  // -------------------------------------------------------------------------
  // Runs of one endpoint whose peer may send anything

  datatype Event = Own(action: Action) | Arrives(frame: Frame)

  function Run(server: bool, events: seq<Event>): Option<Endpoint> {
    if events == [] then Some(Fresh(server))
    else
      var x := Run(server, events[..|events| - 1]);
      if x.None? then None
      else
        match events[|events| - 1]
        case Arrives(f) => Some(x.value.(inbox := x.value.inbox + [f]))
        case Own(a) => if Enabled(x.value, a) then Some(Act(x.value, a)) else None
  }

  lemma {:induction false} RunKeeps(server: bool, events: seq<Event>)
    requires Run(server, events).Some?
    ensures Inv(Run(server, events).value)
  {
    if events != [] {
      RunKeeps(server, events[..|events| - 1]);
      match events[|events| - 1] {
        case Arrives(f) =>
        case Own(a) => ActKeeps(Run(server, events[..|events| - 1]).value, a);
      }
    }
  }

  /** Against any peer: an endpoint starts to write at most one GOAWAY, whose id is the greatest
      id that it has accepted and ever accepts (0 if none), although receivedStreamId is read
      without the lock; and shutdown runs and closes its channel at most once. */
  lemma GoAwayIsSingleAndExact(server: bool, events: seq<Event>)
    requires Run(server, events).Some?
    ensures var x := Run(server, events).value;
            && |x.closing.sent| <= 1
            && (forall last | last in x.closing.sent ::
                  && (forall id | id in x.receiver.accepted :: id <= last)
                  && (last in x.receiver.accepted || (last == 0 && x.receiver.accepted == [])))
            && x.closing.chanCloses <= x.closing.bodies <= 1
  {
    RunKeeps(server, events);
    var x := Run(server, events).value;
    LastGoodIsGreatest(x.receiver);
    if x.receiver.accepted != [] { assert Greatest(x.receiver.accepted) in x.receiver.accepted; }
  }

  // -------------------------------------------------------------------------
  // Two endpoints over FIFO channels

  function SynIds(frames: seq<Frame>): (ids: seq<uint32>)
    ensures |ids| <= |frames|
  {
    if frames == [] then []
    else SynIds(frames[..|frames| - 1]) + (match frames[|frames| - 1] case Syn(id) => [id] case GoAway(_) => [])
  }

  lemma {:induction false} SynIdsAppend(a: seq<Frame>, b: seq<Frame>)
    ensures SynIds(a + b) == SynIds(a) + SynIds(b)
  {
    if b == [] {
      assert a + b == a;
    } else {
      assert (a + b)[..|a + b| - 1] == a + b[..|b| - 1];
      SynIdsAppend(a, b[..|b| - 1]);
    }
  }

  lemma SynIdsHead(frames: seq<Frame>)
    requires frames != []
    ensures SynIds(frames) == (match frames[0] case Syn(id) => [id] case GoAway(_) => []) + SynIds(frames[1..])
  {
    assert frames == [frames[0]] + frames[1..];
    SynIdsAppend([frames[0]], frames[1..]);
    assert [frames[0]][..0] == [];
  }

  /** Ids of the parity of start, below next, in increasing order. */
  ghost predicate Drawn(ids: seq<uint32>, start: uint32, next: uint32) {
    Increasing(ids) && forall id | id in ids :: start <= id < next && id <= MAX_ID && id % 2 == start % 2
  }

  ghost predicate SenderInv(s: Sender, start: uint32) {
    && start in {1, 2} && s.next % 2 == start % 2 && start <= s.next <= MAX_ID + 2
    && Drawn(s.created, start, s.next)
    && Drawn(s.written, start, s.next)
    && (s.creating.Some? ==> Drawn(s.written + [s.creating.value], start, s.next))
  }

  /** The stream frames on the way from x to y. */
  ghost predicate WireInv(x: Endpoint, y: Endpoint, start: uint32) {
    && x.sender.written == y.receiver.seen + SynIds(y.inbox)
    && y.receiver.accepted <= y.receiver.seen
    && y.receiver.rejected == []
    && (!y.closing.goneAway ==> y.receiver.accepted == y.receiver.seen)
    && (y.receiver.accepted == [] ==> y.receiver.received == start)
  }

  ghost predicate GoAwayInv(x: Endpoint, y: Endpoint) {
    && (forall last | GoAway(last) in y.inbox :: last in x.closing.sent)
    && (y.goAway.Some? ==> y.goAway.value in x.closing.sent)
  }

  ghost predicate Link(x: Endpoint, y: Endpoint, start: uint32) {
    && SenderInv(x.sender, start) && WireInv(x, y, start) && GoAwayInv(x, y)
  }

  lemma SenderStep(s: Sender, start: uint32, x: Endpoint, a: Action)
    requires SenderInv(s, start) && x.sender == s && Enabled(x, a)
    ensures SenderInv(Act(x, a).sender, start)
  {
    if a == Create {
      DrawnNext(s.created, start, s.next);
      DrawnNext(s.written, start, s.next);
    }
  }

  lemma DrawnNext(ids: seq<uint32>, start: uint32, next: uint32)
    requires Drawn(ids, start, next) && start <= next <= MAX_ID && next % 2 == start % 2
    ensures Drawn(ids, start, next + 2) && Drawn(ids + [next], start, next + 2)
  {
    forall i | 0 <= i < |ids| ensures ids[i] < next { assert ids[i] in ids; }
  }

  function Deliver(y: Endpoint, frames: seq<Frame>): Endpoint {
    y.(inbox := y.inbox + frames)
  }

  lemma LinkOfSender(x: Endpoint, y: Endpoint, start: uint32, a: Action)
    requires Link(x, y, start) && Enabled(x, a)
    ensures Link(Act(x, a), Deliver(y, Sends(x, a)), start)
  {
    hide SenderInv, WireInv, GoAwayInv;
    SenderStep(x.sender, start, x, a);
    WireOfSender(x, y, start, a);
    GoAwayOfSender(x, y, a);
  }

  lemma WireOfSender(x: Endpoint, y: Endpoint, start: uint32, a: Action)
    requires WireInv(x, y, start) && Enabled(x, a)
    ensures WireInv(Act(x, a), Deliver(y, Sends(x, a)), start)
  {
    hide Act, Sends, Enabled;
    SynIdsAppend(y.inbox, Sends(x, a));
    SentIds(x, a);
  }

  lemma GoAwayOfSender(x: Endpoint, y: Endpoint, a: Action)
    requires GoAwayInv(x, y) && Enabled(x, a)
    ensures GoAwayInv(Act(x, a), Deliver(y, Sends(x, a)))
  {
    var x1, y1 := Act(x, a), Deliver(y, Sends(x, a));
    forall last | GoAway(last) in y1.inbox ensures last in x1.closing.sent {
      if GoAway(last) in y.inbox { SentGrows(x, a, last); }
    }
    if y.goAway.Some? { SentGrows(x, a, y.goAway.value); }
  }

  lemma SentIds(x: Endpoint, a: Action)
    requires Enabled(x, a)
    ensures Act(x, a).sender.written == x.sender.written + SynIds(Sends(x, a))
  {
    if Sends(x, a) != [] { assert [Sends(x, a)[0]][..0] == []; }
  }

  lemma SentGrows(x: Endpoint, a: Action, last: uint32)
    requires Enabled(x, a) && last in x.closing.sent
    ensures last in Act(x, a).closing.sent
  {}

  lemma AcceptsNext(r: Receiver, start: uint32, id: uint32, rest: seq<uint32>, next: uint32)
    requires ReceiverInv(r) && r.accepted == r.seen && r.rejected == []
    requires r.accepted == [] ==> r.received == start
    requires Drawn(r.seen + [id] + rest, start, next)
    ensures Accept(r.received, false, id) == Some(id + 2)
  {
    var all := r.seen + [id] + rest;
    assert all[|r.seen|] == id;
    assert id in all;
    if r.seen != [] {
      assert all[|r.seen| - 1] == Greatest(r.accepted) && Greatest(r.accepted) in all;
    }
  }

  lemma WireOfReceiver(x: Endpoint, y: Endpoint, start: uint32)
    requires Link(x, y, start) && Inv(y) && Enabled(y, ReadFrame)
    ensures WireInv(x, Act(y, ReadFrame), start)
  {
    hide ClosingInv, GoAwayInv;
    SynIdsHead(y.inbox);
    if y.inbox[0].Syn? {
      hide Drawn, ReceiverInv;
      var id, rest := y.inbox[0].id, SynIds(y.inbox[1..]);
      assert x.sender.written == y.receiver.seen + [id] + rest;
      if !y.closing.goneAway { AcceptsNext(y.receiver, start, id, rest, x.sender.next); }
    }
  }

  lemma LinkOfReceiver(x: Endpoint, y: Endpoint, start: uint32, a: Action)
    requires Link(x, y, start) && Inv(y) && Enabled(y, a)
    ensures Link(x, Act(y, a), start)
  {
    if a == ReadFrame {
      WireOfReceiver(x, y, start);
      forall last | GoAway(last) in y.inbox[1..] ensures GoAway(last) in y.inbox {}
    }
  }

  lemma LinkOfInbox(x: Endpoint, y: Endpoint, start: uint32, frames: seq<Frame>)
    requires Link(x, y, start)
    ensures Link(Deliver(x, frames), y, start)
  {}

  datatype Pair = Pair(client: Endpoint, server: Endpoint)

  datatype Move = Move(byClient: bool, action: Action)

  function RunPair(moves: seq<Move>): Option<Pair> {
    if moves == [] then Some(Pair(Fresh(false), Fresh(true)))
    else
      var p := RunPair(moves[..|moves| - 1]);
      if p.None? then None else Step(p.value, moves[|moves| - 1])
  }

  function Step(p: Pair, m: Move): Option<Pair> {
    if m.byClient then
      if Enabled(p.client, m.action)
      then Some(Pair(Act(p.client, m.action), Deliver(p.server, Sends(p.client, m.action))))
      else None
    else
      if Enabled(p.server, m.action)
      then Some(Pair(Deliver(p.client, Sends(p.server, m.action)), Act(p.server, m.action)))
      else None
  }

  ghost predicate PairInv(p: Pair) {
    && Inv(p.client) && Inv(p.server)
    && Link(p.client, p.server, 1) && Link(p.server, p.client, 2)
  }

  lemma StepKeeps(p: Pair, m: Move)
    requires PairInv(p) && Step(p, m).Some?
    ensures PairInv(Step(p, m).value)
  {
    var x, y := if m.byClient then p.client else p.server, if m.byClient then p.server else p.client;
    var xStart, yStart := if m.byClient then 1 else 2, if m.byClient then 2 else 1;
    ActKeeps(x, m.action);
    LinkOfSender(x, y, xStart, m.action);
    LinkOfReceiver(y, x, yStart, m.action);
    LinkOfInbox(y, Act(x, m.action), yStart, Sends(x, m.action));
  }

  lemma {:induction false} RunPairKeeps(moves: seq<Move>)
    requires RunPair(moves).Some?
    ensures PairInv(RunPair(moves).value)
  {
    if moves != [] {
      RunPairKeeps(moves[..|moves| - 1]);
      StepKeeps(RunPair(moves[..|moves| - 1]).value, moves[|moves| - 1]);
    }
  }

  // -------------------------------------------------------------------------
  // What the two endpoints agree on

  /** No received SYN_STREAM is rejected for its id; the ids on the wire increase strictly, keep
      the parity of their sender and fit 31 bits; and an endpoint's own ids differ from each
      other and from the ids that it accepts. */
  lemma EndpointsAgreeOnIds(moves: seq<Move>)
    requires RunPair(moves).Some?
    ensures var p := RunPair(moves).value;
            && p.client.receiver.rejected == [] && p.server.receiver.rejected == []
            && Drawn(p.client.sender.written, 1, MAX_ID + 1)
            && Drawn(p.server.sender.written, 2, MAX_ID + 1)
            && Distinct(p.client) && Distinct(p.server)
  {
    RunPairKeeps(moves);
    var p := RunPair(moves).value;
    PrefixDrawn(p.client, p.server, 1);
    PrefixDrawn(p.server, p.client, 2);
  }

  /** The ids that enter the stream table of x, by either way, never collide. */
  ghost predicate Distinct(x: Endpoint) {
    && Increasing(x.sender.created) && Increasing(x.receiver.accepted)
    && forall id | id in x.sender.created :: id !in x.receiver.accepted
  }

  lemma PrefixDrawn(x: Endpoint, y: Endpoint, start: uint32)
    requires Link(x, y, start)
    ensures forall id | id in y.receiver.accepted :: id in x.sender.written && id % 2 == start % 2
  {
    forall id | id in y.receiver.accepted ensures id in x.sender.written {
      var i :| 0 <= i < |y.receiver.accepted| && y.receiver.accepted[i] == id;
      assert x.sender.written[i] == id;
    }
  }

  /** Exhaustion is permanent: in every run and every continuation of it, an endpoint that has no
      id left never gives one out again. */
  lemma {:induction false} ExhaustionIsPermanent(server: bool, events: seq<Event>, more: seq<Event>)
    requires Run(server, events + more).Some?
    ensures Run(server, events).Some?
    ensures var x, y := Run(server, events).value, Run(server, events + more).value;
            Allocate(x.sender.next).None? ==> y.sender.next == x.sender.next && y.sender.created == x.sender.created
  {
    if more == [] {
      assert events + more == events;
    } else {
      var n := |more| - 1;
      assert (events + more)[..|events + more| - 1] == events + more[..n];
      ExhaustionIsPermanent(server, events, more[..n]);
      hide Act, Enabled, Run;
      ExhaustedStep(server, events + more);
    }
  }

  lemma ExhaustedStep(server: bool, events: seq<Event>)
    requires events != [] && Run(server, events).Some?
    ensures var before := Run(server, events[..|events| - 1]);
            && before.Some?
            && (Allocate(before.value.sender.next).None? ==>
                  && Run(server, events).value.sender.next == before.value.sender.next
                  && Run(server, events).value.sender.created == before.value.sender.created)
  {
    hide Act, Enabled, Allocate;
    var x, e := Run(server, events[..|events| - 1]).value, events[|events| - 1];
    if e.Own? && Allocate(x.sender.next).None? { ExhaustedAct(x, e.action); }
  }

  lemma ExhaustedAct(x: Endpoint, a: Action)
    requires Enabled(x, a) && Allocate(x.sender.next).None?
    ensures Act(x, a).sender.next == x.sender.next && Act(x, a).sender.created == x.sender.created
  {
    hide Close, Check;
  }

  /** y has accepted exactly the streams of x with an id up to last. */
  ghost predicate AcceptedThrough(x: Endpoint, y: Endpoint, last: uint32) {
    forall id | id in x.sender.written :: id in y.receiver.accepted <==> id <= last
  }

  /** What a GOAWAY says about the streams of the endpoint to which it is sent, from when it is
      written, on its way, when it is handled and in all later states, to either side: its sender
      has accepted exactly those with an id up to the one it names, and accepts no other. */
  lemma GoAwayNamesTheAccepted(moves: seq<Move>, last: uint32)
    requires RunPair(moves).Some?
    ensures var p := RunPair(moves).value;
            && (last in p.server.closing.sent ==> AcceptedThrough(p.client, p.server, last))
            && (last in p.client.closing.sent ==> AcceptedThrough(p.server, p.client, last))
            && (GoAway(last) in p.client.inbox || p.client.goAway == Some(last) ==> last in p.server.closing.sent)
            && (GoAway(last) in p.server.inbox || p.server.goAway == Some(last) ==> last in p.client.closing.sent)
  {
    RunPairKeeps(moves);
    var p := RunPair(moves).value;
    hide RunPair, SenderInv, WireInv, Inv;
    if last in p.server.closing.sent { AcceptedUpTo(p.client, p.server, 1, last); }
    if last in p.client.closing.sent { AcceptedUpTo(p.server, p.client, 2, last); }
  }

  lemma AcceptedUpTo(x: Endpoint, y: Endpoint, start: uint32, last: uint32)
    requires Link(x, y, start) && Inv(y) && last in y.closing.sent
    ensures forall id | id in x.sender.written :: id in y.receiver.accepted <==> id <= last
  {
    var written, accepted := x.sender.written, y.receiver.accepted;
    LastGoodIsGreatest(y.receiver);
    forall id | id in written ensures id in accepted <==> id <= last {
      var i :| 0 <= i < |written| && written[i] == id;
      if i < |accepted| {
        assert accepted[i] == id;
      } else if accepted != [] {
        assert written[|accepted| - 1] == accepted[|accepted| - 1] == last;
      }
    }
  }
}
