/** When a ping channel can be closed twice: Ping reads pingId before it takes the lock, so calls
    that overlap can draw the same id, and ids come round after 2^30 draws. */
module PingThreshold {
  import opened Bytes
  import opened Options
  import opened Ping

  /** Throughout the run, at most n calls of the endpoint are between reading pingId and taking
      the lock. */
  ghost predicate Bounded(events: seq<Event>, client: bool, n: nat) {
    && Run(events).Some?
    && |Side(Run(events).value, client).read| <= n
    && (events != [] ==> Bounded(events[..|events| - 1], client, n))
  }

  /** The run closes the channel of some draw twice, within m draws. */
  ghost predicate ClosesTwice(events: seq<Event>, client: bool, n: nat, m: nat) {
    && Bounded(events, client, n)
    && var x := Side(Run(events).value, client);
       |x.ids| <= m && exists d | 0 <= d < |x.closes| :: x.closes[d] >= 2
  }

  // -------------------------------------------------------------------------
  // Safety

  /** Whatever carries an id was drawn with it. */
  ghost predicate Known(x: Endpoint, y: Endpoint) {
    forall id | Carried(x, y, id) > 0 :: id in x.ids
  }

  /** The ids were drawn one at a time, and a call that has read pingId will draw that id. */
  ghost predicate InTurn(x: Endpoint) {
    Serial(x) && forall id | id in x.read :: id == x.pingId
  }

  lemma InUseIsKnown(x: Endpoint, y: Endpoint, id: uint32)
    requires Draws(x) && Known(x, y) && InUse(x, y, id)
    ensures id in x.ids
  {}

  lemma OwnCarries(x: Endpoint, y: Endpoint, a: Action, i: uint32)
    requires Ready(x, y, a) && !a.Register?
    ensures Carried(Act(x, y, a).0, Act(x, y, a).1, i) <= Carried(x, y, i)
  {
    match a {
      case Receive(id, echo) => ReceiveCarries(x, y, id, echo, i);
      case _ =>
    }
  }

  lemma ReceiveCarries(x: Endpoint, y: Endpoint, id: uint32, echo: bool, i: uint32)
    requires Ready(x, y, Receive(id, echo))
    ensures Act(x, y, Receive(id, echo)).1 == y
    ensures Carried(Act(x, y, Receive(id, echo)).0, y, i) <= Carried(x, y, i)
  {}

  lemma KnownOwn(x: Endpoint, y: Endpoint, a: Action)
    requires Ready(x, y, a) && Known(x, y)
    ensures Known(Act(x, y, a).0, Act(x, y, a).1)
  {
    var (x1, y1) := Act(x, y, a);
    forall id | Carried(x1, y1, id) > 0 ensures id in x1.ids {
      if a.Register? {
        assert Carried(x1, y1, id) > 0 ==> Carried(x, y, id) > 0 || id == a.pid;
      } else {
        OwnCarries(x, y, a, id);
        OwnIds(x, y, a);
      }
    }
  }

  lemma OwnIds(x: Endpoint, y: Endpoint, a: Action)
    requires Enabled(x, a) && !a.Register?
    ensures Act(x, y, a).0.ids == x.ids && Act(x, y, a).0.clash == x.clash
  {}

  lemma KnownPeer(x: Endpoint, y: Endpoint, a: Action)
    requires Ready(y, x, a) && Known(x, y)
    ensures Known(Act(y, x, a).1, Act(y, x, a).0)
  {
    PeerFrame(x, y, a);
    var (y1, x1) := Act(y, x, a);
    forall id | Carried(x1, y1, id) > 0 ensures id in x1.ids { PeerCarries(x, y, a, id); }
  }

  lemma InTurnOwn(x: Endpoint, y: Endpoint, a: Action)
    requires InTurn(x) && Enabled(x, a) && |x.read| <= 1
    ensures InTurn(Act(x, y, a).0)
  {
    SerialStep(x, y, a);
    hide Serial;
    if a.Register? {
      assert x.read == multiset{a.pid} by { OnlyOne(x.read, a.pid); }
    }
  }

  lemma OnlyOne(s: multiset<uint32>, e: uint32)
    requires e in s && |s| <= 1
    ensures s == multiset{e}
  {
    var rest := s - multiset{e};
    assert s == rest + multiset{e};
    assert |rest| == 0;
  }

  /** Drawing an id that is not in use leaves no trace of a clash. */
  lemma NoClashOwn(x: Endpoint, y: Endpoint, a: Action, n: nat, m: nat)
    requires Enabled(x, a) && Draws(x) && Known(x, y) && !x.clash && IsStart(x.start)
    requires |x.read| <= n && |Act(x, y, a).0.ids| <= m
    requires m <= 1 || (n <= 1 && m <= TWO_30 && InTurn(x))
    ensures !Act(x, y, a).0.clash
  {
    if a.Register? {
      forall id | InUse(x, y, id) ensures id in x.ids { InUseIsKnown(x, y, id); }
      if 1 < m { SerialDrawsDoNotClash(x, y); }
    } else {
      OwnIds(x, y, a);
    }
  }

  /** What one endpoint keeps while its draws stay within the bounds. */
  ghost predicate Safe(x: Endpoint, y: Endpoint, n: nat) {
    Known(x, y) && !x.clash && (n <= 1 ==> InTurn(x))
  }

  lemma SafeStep(s: State, e: Event, client: bool, n: nat, m: nat)
    requires Both(s) && Step(s, e).Some? && Safe(Side(s, client), Side(s, !client), n)
    requires |Side(s, client).read| <= n && |Side(Step(s, e).value, client).ids| <= m
    requires m <= 1 || (n <= 1 && m <= TWO_30)
    ensures var t := Step(s, e).value; Safe(Side(t, client), Side(t, !client), n)
  {
    var x, y := Side(s, client), Side(s, !client);
    if e.byClient == client {
      KnownOwn(x, y, e.action);
      NoClashOwn(x, y, e.action, n, m);
      if n <= 1 { InTurnOwn(x, y, e.action); }
    } else {
      KnownPeer(x, y, e.action);
      PeerFrame(x, y, e.action);
      PeerReads(x, y, e.action);
    }
    hide Known, Act, Enabled;
  }

  lemma PeerReads(x: Endpoint, y: Endpoint, a: Action)
    requires Enabled(y, a)
    ensures var x1 := Act(y, x, a).1; x1.read == x.read && x1.pingId == x.pingId && x1.start == x.start
  {}

  lemma IdsGrow(s: State, e: Event, client: bool)
    requires Step(s, e).Some?
    ensures |Side(s, client).ids| <= |Side(Step(s, e).value, client).ids|
  {}

  lemma {:induction false} SafeRun(events: seq<Event>, client: bool, n: nat, m: nat)
    requires Bounded(events, client, n) && |Side(Run(events).value, client).ids| <= m
    requires m <= 1 || (n <= 1 && m <= TWO_30)
    ensures var s := Run(events).value;
            Both(s) && Safe(Side(s, client), Side(s, !client), n)
  {
    if events == [] {
      FreshIsSafe(client, n);
    } else {
      hide *;
      var before, e := events[..|events| - 1], events[|events| - 1];
      LastStep(events, client, n);
      RunKeeps(events);
      var s := Run(before).value;
      IdsGrow(s, e, client);
      SafeRun(before, client, n, m);
      SafeStep(s, e, client, n, m);
    }
  }

  lemma FreshIsSafe(client: bool, n: nat)
    ensures Run([]).Some?
    ensures var s := Run([]).value; Both(s) && Safe(Side(s, client), Side(s, !client), n)
  {
    RunKeeps([]);
    hide Both, Safe;
    NewIsSafe(1, 2, n);
    NewIsSafe(2, 1, n);
  }

  lemma NewIsSafe(own: uint32, other: uint32, n: nat)
    requires IsStart(own)
    ensures Safe(Fresh(own), Fresh(other), n)
  {}

  lemma LastStep(events: seq<Event>, client: bool, n: nat)
    requires Bounded(events, client, n) && events != []
    ensures var before := events[..|events| - 1];
            && Bounded(before, client, n) && Run(before).Some? && Run(events).Some?
            && |Side(Run(before).value, client).read| <= n
            && Step(Run(before).value, events[|events| - 1]) == Run(events)
  {
    hide Step;
  }

  /** Without a call that has read pingId nothing is drawn. */
  lemma {:induction false} NothingDrawn(events: seq<Event>, client: bool)
    requires Bounded(events, client, 0)
    ensures Draws(Side(Run(events).value, client)) && Side(Run(events).value, client).ids == []
  {
    RunKeeps(events);
    if events != [] {
      var s := Run(events[..|events| - 1]).value;
      NothingDrawn(events[..|events| - 1], client);
      NothingRegistered(s, events[|events| - 1], client);
    }
  }

  lemma NothingRegistered(s: State, e: Event, client: bool)
    requires Step(s, e).Some? && |Side(s, client).read| == 0
    ensures Side(Step(s, e).value, client).ids == Side(s, client).ids
  {
    assert Side(s, client).read == multiset{};
  }

  /** Few calls at a time and few draws: no channel is closed twice. */
  lemma ClosesOnce(events: seq<Event>, client: bool, n: nat, m: nat)
    requires n == 0 || m <= 1 || (n <= 1 && m <= TWO_30)
    ensures !ClosesTwice(events, client, n, m)
  {
    if Bounded(events, client, n) && |Side(Run(events).value, client).ids| <= m {
      var x := Side(Run(events).value, client);
      if n == 0 {
        NothingDrawn(events, client);
      } else {
        SafeRun(events, client, n, m);
        forall d: nat | d < |x.closes| ensures x.closes[d] <= 1 { ChannelsCloseOnce(events, d); }
      }
    }
  }

  // -------------------------------------------------------------------------
  // How a channel comes to be closed twice

  /** A run within the bound n leads to endpoint x on the given side and y on the other. */
  ghost predicate Reach(client: bool, n: nat, x: Endpoint, y: Endpoint) {
    exists events :: Bounded(events, client, n) && Run(events) == Some(Sides(client, x, y))
  }

  function Sides(client: bool, x: Endpoint, y: Endpoint): State {
    if client then State(x, y) else State(y, x)
  }

  /** The endpoint takes a step. */
  lemma Own(client: bool, n: nat, x: Endpoint, y: Endpoint, a: Action)
    requires Reach(client, n, x, y) && Enabled(x, a) && |Act(x, y, a).0.read| <= n
    ensures Reach(client, n, Act(x, y, a).0, Act(x, y, a).1)
  {
    var events :| Bounded(events, client, n) && Run(events) == Some(Sides(client, x, y));
    hide Act, Enabled;
    var longer := events + [Event(client, a)];
    assert longer[..|longer| - 1] == events;
    assert Run(longer) == Some(Sides(client, Act(x, y, a).0, Act(x, y, a).1));
    assert Bounded(longer, client, n);
  }

  /** The peer takes a step. */
  lemma Peer(client: bool, n: nat, x: Endpoint, y: Endpoint, a: Action)
    requires Reach(client, n, x, y) && Enabled(y, a) && |Act(y, x, a).1.read| <= n
    ensures Reach(client, n, Act(y, x, a).1, Act(y, x, a).0)
  {
    var events :| Bounded(events, client, n) && Run(events) == Some(Sides(client, x, y));
    hide Act, Enabled;
    var longer := events + [Event(!client, a)];
    assert longer[..|longer| - 1] == events;
    assert Run(longer) == Some(Sides(client, Act(y, x, a).1, Act(y, x, a).0));
    assert Bounded(longer, client, n);
  }

  /** Two frames with id i are to be written, and the channel of draw d is registered for it. */
  ghost predicate TwoPending(x: Endpoint, i: uint32, d: nat) {
    && x.toWrite == multiset{i, i} && x.echoes == multiset{} && x.closing == multiset{}
    && i in x.chans && x.chans[i] == d && d < |x.closes| && x.closes[d] == 0
    && i % 2 == x.pingId % 2
  }

  /** The endpoint, with the frames, workers and closings of a double draw where they are. */
  function Along(x: Endpoint, toWrite: multiset<uint32>, echoes: multiset<uint32>, closing: multiset<nat>): Endpoint {
    x.(toWrite := toWrite, echoes := echoes, closing := closing)
  }

  lemma Ones<T>(e: T)
    ensures multiset{} + multiset{e} == multiset{e} && multiset{e} + multiset{e} == multiset{e, e}
    ensures multiset{e, e} - multiset{e} == multiset{e} && multiset{e} - multiset{e} == multiset{}
  {}

  /** Both frames go out. */
  lemma BothWritten(client: bool, n: nat, x: Endpoint, y: Endpoint, i: uint32, d: nat)
    requires Reach(client, n, x, y) && TwoPending(x, i, d) && |x.read| <= n && y.pings == multiset{}
    ensures Reach(client, n, Along(x, multiset{}, multiset{}, multiset{}), y.(pings := multiset{i, i}))
  {
    hide Reach;
    Ones(i);
    Own(client, n, x, y, Write(i, true));
    var x1, y1 := Along(x, multiset{i}, multiset{}, multiset{}), y.(pings := multiset{i});
    assert Act(x, y, Write(i, true)) == (x1, y1);
    Own(client, n, x1, y1, Write(i, true));
    assert Act(x1, y1, Write(i, true)) == (Along(x, multiset{}, multiset{}, multiset{}), y.(pings := multiset{i, i}));
  }

  /** The peer takes both and sends them back. */
  lemma BothEchoed(client: bool, n: nat, x: Endpoint, y: Endpoint, i: uint32)
    requires Reach(client, n, x, y.(pings := multiset{i, i})) && x.echoes == multiset{} && |x.read| <= n
    requires y.echoing == multiset{} && y.pingId % 2 != i % 2
    ensures Reach(client, n, x.(echoes := multiset{i, i}), y.(pings := multiset{}))
  {
    hide Reach;
    Ones(i);
    var y0, y1 := y.(pings := multiset{i, i}), y.(pings := multiset{i}, echoing := multiset{i});
    var y2 := y.(pings := multiset{}, echoing := multiset{i, i});
    var y3, y4 := y.(pings := multiset{}, echoing := multiset{i}), y.(pings := multiset{});
    Peer(client, n, x, y0, Receive(i, false));
    assert Act(y0, x, Receive(i, false)) == (y1, x);
    Peer(client, n, x, y1, Receive(i, false));
    assert Act(y1, x, Receive(i, false)) == (y2, x);
    Peer(client, n, x, y2, WriteEcho(i, true));
    assert Act(y2, x, WriteEcho(i, true)) == (y3, x.(echoes := multiset{i}));
    Peer(client, n, x.(echoes := multiset{i}), y3, WriteEcho(i, true));
    assert Act(y3, x.(echoes := multiset{i}), WriteEcho(i, true)) == (y4, x.(echoes := multiset{i, i}));
  }

  /** Two workers look the id up, find the same channel, and close it. */
  lemma BothClosed(client: bool, n: nat, x: Endpoint, y: Endpoint, i: uint32, d: nat)
    requires Reach(client, n, x.(echoes := multiset{i, i}), y) && |x.read| <= n && x.closing == multiset{}
    requires i in x.chans && x.chans[i] == d && d < |x.closes| && x.closes[d] == 0 && i % 2 == x.pingId % 2
    ensures Reach(client, n, x.(echoes := multiset{}, closes := x.closes[d := 2]), y)
  {
    hide Reach;
    Ones(i);
    Ones(d);
    var x0, x1 := x.(echoes := multiset{i, i}), x.(echoes := multiset{i}, closing := multiset{d});
    var x2 := x.(echoes := multiset{}, closing := multiset{d, d});
    var x3 := x.(echoes := multiset{}, closing := multiset{d}, closes := x.closes[d := 1]);
    Own(client, n, x0, y, Receive(i, true));
    assert Act(x0, y, Receive(i, true)) == (x1, y);
    Own(client, n, x1, y, Receive(i, true));
    assert Act(x1, y, Receive(i, true)) == (x2, y);
    Own(client, n, x2, y, CloseChan(d));
    assert Act(x2, y, CloseChan(d)) == (x3, y);
    Own(client, n, x3, y, CloseChan(d));
    assert x.closes[d := 1][d := 2] == x.closes[d := 2];
    assert Act(x3, y, CloseChan(d)) == (x.(echoes := multiset{}, closes := x.closes[d := 2]), y);
  }

  /** From two pending frames with one id to a channel that is closed twice. */
  lemma DoubleClose(client: bool, n: nat, m: nat, x: Endpoint, y: Endpoint, i: uint32, d: nat)
    requires Reach(client, n, x, y) && TwoPending(x, i, d) && |x.read| <= n && |x.ids| <= m
    requires y.pings == multiset{} && y.echoing == multiset{} && y.pingId % 2 != i % 2
    ensures exists events :: ClosesTwice(events, client, n, m)
  {
    var x1 := Along(x, multiset{}, multiset{}, multiset{});
    BothWritten(client, n, x, y, i, d);
    BothEchoed(client, n, x1, y, i);
    BothClosed(client, n, x1, y.(pings := multiset{}), i, d);
    var end := x1.(closes := x1.closes[d := 2]);
    var events :| Bounded(events, client, n) && Run(events) == Some(Sides(client, end, y.(pings := multiset{})));
    hide Bounded, Run;
    assert end.closes[d] >= 2;
    assert ClosesTwice(events, client, n, m);
  }

  // -------------------------------------------------------------------------
  // Two calls at a time

  function Start(client: bool): uint32 {
    if client then 1 else 2
  }

  lemma ReachFresh(client: bool, n: nat)
    ensures Reach(client, n, Fresh(Start(client)), Fresh(Start(!client)))
  {
    assert Bounded([], client, n) && Run([]) == Some(Sides(client, Fresh(Start(client)), Fresh(Start(!client))));
  }

  /** Two calls read the same id before either registers. */
  lemma OverlapCloses(client: bool, n: nat, m: nat)
    requires 2 <= n && 2 <= m
    ensures exists events :: ClosesTwice(events, client, n, m)
  {
    hide Reach;
    var s := Start(client);
    var x, y := Fresh(s), Fresh(Start(!client));
    ReachFresh(client, n);
    Ones(s);
    Own(client, n, x, y, ReadId);
    var x1 := x.(read := multiset{s});
    assert Act(x, y, ReadId) == (x1, y);
    Own(client, n, x1, y, ReadId);
    var x2 := x.(read := multiset{s, s});
    assert Act(x1, y, ReadId) == (x2, y);
    Own(client, n, x2, y, Register(s));
    var x3 := Act(x2, y, Register(s)).0;
    Own(client, n, x3, y, Register(s));
    var x4 := Act(x3, y, Register(s)).0;
    hide Act;
    DoubleClose(client, n, m, x4, y, s, 1);
  }

  // -------------------------------------------------------------------------
  // One call at a time, until the ids come round

  /** The first of k draws still waits, its frame not yet written; all others have failed and
      returned. */
  ghost predicate Waiting(x: Endpoint, s: uint32, k: nat) {
    && x.start == s && x.pingId == IdOfDraw(s, k) && x.read == multiset{}
    && |x.ids| == |x.closes| == k && x.chans == map[s := 0]
    && x.toWrite == multiset{s} && x.echoes == multiset{} && x.closing == multiset{}
  }

  lemma FirstDraw(client: bool, n: nat) returns (x: Endpoint)
    requires 1 <= n
    ensures Reach(client, n, x, Fresh(Start(!client))) && Waiting(x, Start(client), 1)
  {
    hide Reach;
    var s, y := Start(client), Fresh(Start(!client));
    var x0 := Fresh(s);
    ReachFresh(client, n);
    Ones(s);
    Own(client, n, x0, y, ReadId);
    var x1 := x0.(read := multiset{s});
    assert Act(x0, y, ReadId) == (x1, y);
    Own(client, n, x1, y, Register(s));
    x := Act(x1, y, Register(s)).0;
    assert IdOfDraw(s, 1) == NextPingId(IdOfDraw(s, 0));
  }

  /** A call draws an id, fails to write its frame, and returns. */
  lemma FailedDraw(client: bool, n: nat, x: Endpoint, k: nat) returns (x': Endpoint)
    requires 1 <= n && 1 <= k && k < TWO_30
    requires Reach(client, n, x, Fresh(Start(!client))) && Waiting(x, Start(client), k)
    ensures Reach(client, n, x', Fresh(Start(!client))) && Waiting(x', Start(client), k + 1)
  {
    hide Reach, InUse, IdOfDraw;
    var s, y := Start(client), Fresh(Start(!client));
    var id := x.pingId;
    OtherId(s, k);
    Ones(id);
    Own(client, n, x, y, ReadId);
    var x1 := x.(read := multiset{id});
    assert Act(x, y, ReadId) == (x1, y);
    Own(client, n, x1, y, Register(id));
    var x2 := Act(x1, y, Register(id)).0;
    Own(client, n, x2, y, Write(id, false));
    var x3 := Act(x2, y, Write(id, false)).0;
    Own(client, n, x3, y, Return(id));
    x' := Act(x3, y, Return(id)).0;
    assert x'.toWrite == multiset{s};
    assert x'.chans == map[s := 0];
  }

  lemma OtherId(s: uint32, k: nat)
    requires IsStart(s) && 1 <= k < TWO_30
    ensures IdOfDraw(s, k) != s && IdOfDraw(s, k + 1) == NextPingId(IdOfDraw(s, k))
  {
    IdsCycle(s, 0, k);
  }

  lemma {:induction false} ManyDraws(client: bool, n: nat, k: nat) returns (x: Endpoint)
    requires 1 <= n && 1 <= k <= TWO_30
    ensures Reach(client, n, x, Fresh(Start(!client))) && Waiting(x, Start(client), k)
  {
    hide *;
    if k == 1 {
      x := FirstDraw(client, n);
    } else {
      x := ManyDraws(client, n, k - 1);
      x := FailedDraw(client, n, x, k - 1);
    }
  }

  /** The draw after 2^30 others takes the id of the first one, which still waits. */
  lemma WrappedDraw(client: bool, n: nat, x: Endpoint) returns (x': Endpoint)
    requires 1 <= n && Waiting(x, Start(client), TWO_30) && Reach(client, n, x, Fresh(Start(!client)))
    ensures Reach(client, n, x', Fresh(Start(!client)))
    ensures TwoPending(x', Start(client), TWO_30) && x'.read == multiset{} && |x'.ids| == TWO_30 + 1
  {
    hide Reach, InUse, IdOfDraw;
    var s, y := Start(client), Fresh(Start(!client));
    WrappedId(s);
    Ones(s);
    Own(client, n, x, y, ReadId);
    var x1 := x.(read := multiset{s});
    assert Act(x, y, ReadId) == (x1, y);
    Own(client, n, x1, y, Register(s));
    x' := Act(x1, y, Register(s)).0;
    assert x'.read == multiset{} && x'.toWrite == multiset{s, s};
  }

  lemma WrappedId(s: uint32)
    requires IsStart(s)
    ensures IdOfDraw(s, TWO_30) == s && NextPingId(s) % 2 == s % 2
  {
    IdOfDrawClosed(s, TWO_30);
  }

  lemma WrapCloses(client: bool, n: nat, m: nat)
    requires 1 <= n && TWO_30 < m
    ensures exists events :: ClosesTwice(events, client, n, m)
  {
    hide Reach, ClosesTwice, Waiting;
    var x := ManyDraws(client, n, TWO_30);
    var x1 := WrappedDraw(client, n, x);
    DoubleClose(client, n, m, x1, Fresh(Start(!client)), Start(client), TWO_30);
  }

  // -------------------------------------------------------------------------
  // The exact threshold

  /** In the runs of two endpoints, at either of them: with at most n calls between the read of
      pingId and the lock, and within m draws, a ping channel can be closed twice if and only if
      two calls can overlap there and there are two draws, or the ids come round. */
  lemma DoubleCloseThreshold(client: bool, n: nat, m: nat)
    ensures (exists events :: ClosesTwice(events, client, n, m))
            <==> (2 <= n && 2 <= m) || (1 <= n && TWO_30 < m)
  {
    if 2 <= n && 2 <= m {
      OverlapCloses(client, n, m);
    } else if 1 <= n && TWO_30 < m {
      WrapCloses(client, n, m);
    } else {
      forall events ensures !ClosesTwice(events, client, n, m) { ClosesOnce(events, client, n, m); }
    }
  }

  /** What a caller who serialises Ping gets: in every run in which no two calls of an endpoint
      overlap in drawing an id, no channel is closed twice within 2^30 draws. */
  lemma SerialPingsCloseOnce(events: seq<Event>, client: bool, d: nat)
    requires Bounded(events, client, 1) && |Side(Run(events).value, client).ids| <= TWO_30
    ensures var x := Side(Run(events).value, client);
            d < |x.closes| ==> x.closes[d] <= 1
  {
    ClosesOnce(events, client, 1, TWO_30);
  }
}
