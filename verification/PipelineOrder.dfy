/** The frames of a stream are handled in the order in which they were read, whatever the
    priorities and however the handlers interleave, as long as none is queued in front of a
    different one. */
module PipelineOrder {
  import opened Options
  import opened StreamLife
  import opened Pipeline
  import opened PipelineLife
  import Q = StableQueue

  function Owner(x: Id): Frame -> bool {
    f => IsMine(f, x)
  }

  function Queued(q: seq<Q.Item<Frame>>, x: Id): seq<Frame> {
    Q.Select(q, Owner(x))
  }

  /** What the fate of stream x depends on: its frames are read by Serve and go through one lane. */
  datatype View = View(read: seq<Frame>, reader: Reader, lane: Lane, stream: Stream, overtaken: bool)

  function ViewOf(s: State, x: Id): View {
    View(s.read, s.reader, s.lanes[LaneOf(x)], At(s, x), x in s.overtaken)
  }

  // -------------------------------------------------------------------------
  // The order of frames, as an invariant

  /** The frames of x that were read are, in this order: handled, in handling, queued, and in the
      hands of Serve. */
  ghost predicate Fifo(v: View, x: Id) {
    Mine(v.read, x) ==
      Mine(v.lane.handled, x) + Mine(Current(v.lane.worker), x) + Queued(v.lane.queue, x) + Mine(InHand(v.reader), x)
  }

  ghost predicate OrderInv(v: View, x: Id) {
    && Q.Ordered(v.lane.queue)
    && (!v.overtaken ==> Fifo(v, x))
  }

  // -------------------------------------------------------------------------
  // Sequences of frames

  lemma MineLast(frames: seq<Frame>, f: Frame, x: Id)
    ensures Mine(frames + [f], x) == Mine(frames, x) + (if IsMine(f, x) then [f] else [])
  {
    assert (frames + [f])[..|frames|] == frames;
  }

  lemma MineNone(x: Id)
    ensures Mine([], x) == []
  {}

  lemma MineOne(f: Frame, x: Id)
    ensures Mine([f], x) == if IsMine(f, x) then [f] else []
  {
    assert [f][..0] == [];
  }

  lemma AppendNothing(frames: seq<Frame>)
    ensures frames + [] == frames
  {}

  // -------------------------------------------------------------------------
  // Steps on a view

  /** A step that leaves the frames of x where they are. */
  lemma OrderSame(v: View, v1: View, x: Id)
    requires OrderInv(v, x) && v1.overtaken == v.overtaken
    requires v1.read == v.read && InHand(v1.reader) == InHand(v.reader)
    requires v1.lane.queue == v.lane.queue && v1.lane.handled == v.lane.handled
    requires Current(v1.lane.worker) == Current(v.lane.worker)
    ensures OrderInv(v1, x)
  {
    hide Mine, Queued, Q.Ordered;
  }

  lemma OrderRead(v: View, x: Id, f: Frame, r: Reader)
    requires OrderInv(v, x) && v.reader.Reading? && InHand(r) == [f]
    ensures OrderInv(v.(reader := r, read := v.read + [f]), x)
  {
    MineLast(v.read, f, x);
    MineOne(f, x);
    MineNone(x);
    hide Mine, Queued, Q.Ordered;
  }

  function AfterPush(v: View): View
    requires v.reader.Pushing?
  {
    v.(reader := Reading, lane := Pushed(v.lane, v.reader.frame, v.reader.priority))
  }

  /** The push that waits puts its frame in front of another one of stream x. */
  ghost predicate PutsInFront(v: View, x: Id)
    requires v.reader.Pushing?
  {
    IsMine(v.reader.frame, x) && Overtakes(v.lane.queue, v.reader.frame, v.reader.priority)
  }

  /** A push keeps the frames of x in order if and only if it does not put one in front of a
      different one. */
  lemma PushKeepsOrderExactly(v: View, x: Id)
    requires Q.Ordered(v.lane.queue) && Fifo(v, x) && v.reader.Pushing?
    ensures Fifo(AfterPush(v), x) <==> !PutsInFront(v, x)
  {
    var f, e := v.reader.frame, Q.Item(v.reader.frame, v.reader.priority);
    var front := Mine(v.lane.handled, x) + Mine(Current(v.lane.worker), x);
    var q, q1 := Queued(v.lane.queue, x), Queued(Q.Insert(v.lane.queue, e), x);
    MineOne(f, x);
    MineNone(x);
    QueuedAfterPush(v.lane.queue, f, v.reader.priority, x);
    hide Mine, Queued, Q.Insert, Q.Ordered, Overtakes;
    AppendNothing(front + q1);
    AppendNothing(front + q);
    assert Mine(v.read, x) == front + (q + Mine([f], x));
    Q.SameBehind(front, q + Mine([f], x), q1);
  }

  lemma QueuedAfterPush(q: seq<Q.Item<Frame>>, f: Frame, priority: uint8, x: Id)
    requires Q.Ordered(q)
    ensures Queued(Q.Insert(q, Q.Item(f, priority)), x) == Queued(q, x) + (if IsMine(f, x) then [f] else [])
            <==> !(IsMine(f, x) && Overtakes(q, f, priority))
  {
    var e := Q.Item(f, priority);
    hide Q.Select, Q.Insert, Q.Ordered;
    if IsMine(f, x) {
      Q.InsertSelectExactly(q, e, Owner(x));
    } else {
      Q.InsertSelect(q, e, Owner(x));
    }
  }

  lemma OrderPush(v: View, x: Id)
    requires OrderInv(v, x) && v.reader.Pushing?
    ensures OrderInv(AfterPush(v).(overtaken := v.overtaken || PutsInFront(v, x)), x)
  {
    Q.InsertOrdered(v.lane.queue, Q.Item(v.reader.frame, v.reader.priority));
    hide Mine, Queued, Q.Insert, Q.Ordered, PutsInFront;
    if !v.overtaken { PushKeepsOrderExactly(v, x); }
  }

  /** Another lane receives the frame. */
  lemma OrderPushOther(v: View, x: Id)
    requires OrderInv(v, x) && v.reader.Pushing? && !IsMine(v.reader.frame, x)
    ensures OrderInv(v.(reader := Reading), x)
  {
    MineOne(v.reader.frame, x);
    MineNone(x);
    hide Mine, Queued, Q.Ordered;
  }

  lemma OrderPop(v: View, x: Id)
    requires OrderInv(v, x) && v.lane.worker.Idle? && v.lane.queue != []
    ensures OrderInv(v.(lane := Popped(v.lane)), x)
  {
    MineOne(v.lane.queue[0].frame, x);
    MineNone(x);
    hide Mine;
  }

  lemma OrderAdvance(v: View, x: Id, next: Option<Stage>, st: Stream)
    requires OrderInv(v, x) && v.lane.worker.Busy?
    ensures OrderInv(v.(lane := Advanced(v.lane, v.lane.worker.frame, next), stream := st), x)
  {
    MineOne(v.lane.worker.frame, x);
    MineNone(x);
    MineLast(v.lane.handled, v.lane.worker.frame, x);
    hide Mine, Queued, Q.Ordered;
    AppendNothing(Mine(v.lane.handled, x) + Mine([v.lane.worker.frame], x));
  }

  // -------------------------------------------------------------------------
  // Steps of the connection

  ghost predicate OrderReady(s: State, x: Id) {
    OrderInv(ViewOf(s, x), x) && forall w: Index :: LanePlaced(s, w)
  }

  lemma OrderStepRead(s: State, f: Frame, x: Id)
    requires OrderInv(ViewOf(s, x), x) && Enabled(s, Read(f))
    ensures OrderInv(ViewOf(Apply(s, Read(f)), x), x)
  {
    hide OrderInv, Arrives, PriorityOf, Mine, LaneOf;
    var v, r := ViewOf(s, x), Classify(s, f);
    if InHand(r) == [f] {
      OrderRead(v, x, f, r);
    } else {
      assert v.read + [] == v.read;
      OrderSame(v, v.(reader := r), x);
    }
  }

  lemma OrderStepPush(s: State, x: Id)
    requires OrderReady(s, x) && Enabled(s, Push)
    ensures OrderInv(ViewOf(Apply(s, Push), x), x)
  {
    hide OrderInv, Pushed, LanePlaced, Overtakes;
    assert LanePlaced(s, s.reader.lane);
    ReaderPlaced(s, s.reader.lane);
    var v := ViewOf(s, x);
    OvertakersAreOnStreams(s.lanes[s.reader.lane].queue, s.reader.frame, s.reader.priority);
    if s.reader.lane == LaneOf(x) { OrderPush(v, x); } else { OrderPushOther(v, x); }
  }

  lemma OvertakersAreOnStreams(q: seq<Q.Item<Frame>>, f: Frame, priority: uint8)
    ensures Overtakes(q, f, priority) ==> f.OnStream?
  {}

  lemma ReaderPlaced(s: State, w: Index)
    requires LanePlaced(s, w) && s.reader.Pushing?
    ensures Placed(s.reader.frame, s.reader.lane)
  {}

  lemma OrderStepPop(s: State, w: Index, x: Id)
    requires OrderInv(ViewOf(s, x), x) && Enabled(s, Pop(w))
    ensures OrderInv(ViewOf(Apply(s, Pop(w)), x), x)
  {
    hide OrderInv, Popped, LaneOf;
    if w == LaneOf(x) { OrderPop(ViewOf(s, x), x); }
  }

  lemma OrderStepAdvance(s: State, w: Index, m: Move, x: Id)
    requires OrderReady(s, x) && Enabled(s, Advance(w, m))
    ensures OrderInv(ViewOf(Apply(s, Advance(w, m)), x), x)
  {
    hide OrderInv, Advanced, Handled, CanAdvance, NextStage, LanePlaced;
    var Busy(f, stage) := s.lanes[w].worker;
    assert LanePlaced(s, w);
    WorkerPlaced(s, w);
    var v, v1 := ViewOf(s, x), ViewOf(Apply(s, Advance(w, m)), x);
    if w == LaneOf(x) {
      OrderAdvance(v, x, NextStage(f, stage, At(s, IdOf(f)), m), v1.stream);
    } else {
      OrderSame(v, v1, x);
    }
  }

  lemma WorkerPlaced(s: State, w: Index)
    requires LanePlaced(s, w) && s.lanes[w].worker.Busy?
    ensures Placed(s.lanes[w].worker.frame, w)
  {}

  /** The steps that leave the frames of all streams where they are. */
  lemma OrderStepRest(s: State, a: Action, x: Id)
    requires OrderInv(ViewOf(s, x), x) && Enabled(s, a)
    requires !a.Read? && !a.Push? && !a.Pop? && !a.Advance?
    ensures OrderInv(ViewOf(Apply(s, a), x), x)
  {
    hide OrderInv, Used, CanUse, Shut, Expired, LaneOf, Listed, Mine, Accepted, Created, At;
    OrderSame(ViewOf(s, x), ViewOf(Apply(s, a), x), x);
  }

  lemma OrderStep(s: State, a: Action, x: Id)
    requires OrderReady(s, x) && Enabled(s, a)
    ensures OrderInv(ViewOf(Apply(s, a), x), x)
  {
    hide OrderInv, LanePlaced, Enabled, Apply;
    match a {
      case Read(f) => OrderStepRead(s, f, x);
      case Push => OrderStepPush(s, x);
      case Pop(w) => OrderStepPop(s, w, x);
      case Advance(w, m) => OrderStepAdvance(s, w, m, x);
      case _ => OrderStepRest(s, a, x);
    }
  }

  lemma OrderReadyStep(s: State, a: Action, x: Id)
    requires OrderReady(s, x) && Enabled(s, a)
    ensures OrderReady(Apply(s, a), x)
  {
    hide OrderInv, LanePlaced, Enabled, Apply;
    OrderStep(s, a, x);
    forall w: Index ensures LanePlaced(Apply(s, a), w) { PlacedStep(s, a, w); }
  }

  lemma OrderAtStart(server: bool, x: Id)
    ensures OrderReady(Init(server), x)
  {
    hide LaneOf;
  }

  lemma {:induction false} OrderRun(server: bool, run: seq<Action>, x: Id)
    requires Run(server, run).Some?
    ensures OrderReady(Run(server, run).value, x)
  {
    hide OrderReady, Enabled, Apply, Init;
    if run == [] {
      OrderAtStart(server, x);
    } else {
      OrderRun(server, run[..|run| - 1], x);
      OrderReadyStep(Run(server, run[..|run| - 1]).value, run[|run| - 1], x);
    }
  }

  // -------------------------------------------------------------------------
  // What this promises

  ghost predicate Absent(l: Lane, x: Id) {
    && (forall e | e in l.queue :: !IsMine(e.frame, x))
    && (l.worker.Busy? ==> !IsMine(l.worker.frame, x))
    && (forall f | f in l.handled :: !IsMine(f, x))
  }

  /** The frames of x that were read are those handled, in handling, queued, and in the hands of
      Serve, in this order, and all of them pass through one lane. */
  ghost predicate InOrder(s: State, x: Id) {
    var l := s.lanes[LaneOf(x)];
    && Mine(s.read, x) ==
         Mine(l.handled, x) + Mine(Current(l.worker), x) + Queued(l.queue, x) + Mine(InHand(s.reader), x)
    && forall w: Index | w != LaneOf(x) :: Absent(s.lanes[w], x)
  }

  lemma ElsewhereAbsent(s: State, w: Index, x: Id)
    requires LanePlaced(s, w) && w != LaneOf(x)
    ensures Absent(s.lanes[w], x)
  {}

  lemma InOrderIsFifo(server: bool, run: seq<Action>, x: Id)
    requires Run(server, run).Some?
    ensures var s := Run(server, run).value; InOrder(s, x) <==> Fifo(ViewOf(s, x), x)
    ensures var s := Run(server, run).value; x !in s.overtaken ==> InOrder(s, x)
  {
    OrderRun(server, run, x);
    var s := Run(server, run).value;
    hide Run, Mine, Queued, LanePlaced, Absent;
    forall w: Index | w != LaneOf(x) ensures Absent(s.lanes[w], x) { ElsewhereAbsent(s, w, x); }
  }

  ghost predicate InOrderAfter(server: bool, run: seq<Action>, x: Id) {
    Run(server, run).Some? && InOrder(Run(server, run).value, x)
  }

  /** The last step of the run queues a frame of x in front of a different one. */
  ghost predicate OvertakesLast(server: bool, run: seq<Action>, x: Id) {
    run != [] &&
    var before := Run(server, run[..|run| - 1]);
    && before.Some? && run[|run| - 1].Push? && before.value.reader.Pushing?
    && var Pushing(f, priority, w) := before.value.reader;
       IsMine(f, x) && Overtakes(before.value.lanes[w].queue, f, priority)
  }

  ghost predicate AlwaysInOrder(server: bool, run: seq<Action>, x: Id) {
    forall n | 0 <= n <= |run| :: InOrderAfter(server, run[..n], x)
  }

  ghost predicate NeverOvertakes(server: bool, run: seq<Action>, x: Id) {
    forall n | 0 <= n <= |run| :: !OvertakesLast(server, run[..n], x)
  }

  lemma LastState(server: bool, run: seq<Action>, x: Id)
    requires run != []
    ensures var before := run[..|run| - 1];
            && (AlwaysInOrder(server, run, x) <==> AlwaysInOrder(server, before, x) && InOrderAfter(server, run, x))
            && (NeverOvertakes(server, run, x) <==> NeverOvertakes(server, before, x) && !OvertakesLast(server, run, x))
  {
    hide InOrderAfter, OvertakesLast;
    var before := run[..|run| - 1];
    assert run[..|run|] == run;
    assert forall n | 0 <= n < |run| :: before[..n] == run[..n];
  }

  lemma LastPush(server: bool, run: seq<Action>, x: Id)
    requires run != [] && Run(server, run).Some?
    ensures var s, s1 := Run(server, run[..|run| - 1]).value, Run(server, run).value;
            && (x in s1.overtaken <==> x in s.overtaken || OvertakesLast(server, run, x))
            && (OvertakesLast(server, run, x) && Fifo(ViewOf(s, x), x) ==> !Fifo(ViewOf(s1, x), x))
  {
    var s, a := Run(server, run[..|run| - 1]).value, run[|run| - 1];
    OrderRun(server, run[..|run| - 1], x);
    if a.Push? {
      hide Run, Fifo, LanePlaced, Q.Ordered;
      PushExactly(s, x);
    } else {
      hide *;
      SameOvertaken(s, a);
      NoOvertaking(server, run, x);
    }
  }

  lemma NoOvertaking(server: bool, run: seq<Action>, x: Id)
    requires run != [] && Run(server, run).Some? && !run[|run| - 1].Push?
    ensures !OvertakesLast(server, run, x)
    ensures var s := Run(server, run[..|run| - 1]).value;
            Enabled(s, run[|run| - 1]) && Run(server, run).value == Apply(s, run[|run| - 1])
  {
    hide Enabled, Apply;
  }

  lemma SameOvertaken(s: State, a: Action)
    requires Enabled(s, a) && !a.Push?
    ensures Apply(s, a).overtaken == s.overtaken
  {
    hide Mine, At, Used, Handled, NextStage, CanUse, CanAdvance, Expired, Shut, Accepted, Created, Listed;
  }

  lemma PushExactly(s: State, x: Id)
    requires OrderReady(s, x) && Enabled(s, Push)
    ensures var s1, r := Apply(s, Push), s.reader;
            var overtakes := IsMine(r.frame, x) && Overtakes(s.lanes[r.lane].queue, r.frame, r.priority);
            && (x in s1.overtaken <==> x in s.overtaken || overtakes)
            && (overtakes && Fifo(ViewOf(s, x), x) ==> !Fifo(ViewOf(s1, x), x))
  {
    hide Fifo, Q.Ordered, Pushed, LanePlaced, Overtakes;
    assert LanePlaced(s, s.reader.lane);
    ReaderPlaced(s, s.reader.lane);
    var r := s.reader;
    OvertakersAreOnStreams(s.lanes[r.lane].queue, r.frame, r.priority);
    if IsMine(r.frame, x) && Fifo(ViewOf(s, x), x) {
      PushKeepsOrderExactly(ViewOf(s, x), x);
      FifoIgnoresStreams(AfterPush(ViewOf(s, x)), ViewOf(Apply(s, Push), x), x);
    }
  }

  lemma FifoIgnoresStreams(v: View, v1: View, x: Id)
    requires v1.read == v.read && v1.reader == v.reader && v1.lane == v.lane
    ensures Fifo(v, x) <==> Fifo(v1, x)
  {}

  /** The frames of a stream are in order in every state of a run if and only if no push of the
      run has put one of them in front of a different one. That goes for every stream id and any
      peer, and whatever the application does to the priority of the stream. */
  lemma {:induction false} OrderExactly(server: bool, run: seq<Action>, x: Id)
    requires Run(server, run).Some?
    ensures AlwaysInOrder(server, run, x) <==> NeverOvertakes(server, run, x)
    ensures NeverOvertakes(server, run, x) <==> x !in Run(server, run).value.overtaken
  {
    InOrderIsFifo(server, run, x);
    if run != [] {
      var before := run[..|run| - 1];
      hide InOrder, OvertakesLast, AlwaysInOrder, NeverOvertakes, Fifo, Enabled, Apply;
      OrderExactly(server, before, x);
      InOrderIsFifo(server, before, x);
      LastState(server, run, x);
      LastPush(server, run, x);
      LastOfAll(server, before, x);
    } else {
      assert run[..0] == run;
    }
  }

  lemma LastOfAll(server: bool, run: seq<Action>, x: Id)
    ensures AlwaysInOrder(server, run, x) ==> InOrderAfter(server, run, x)
  {
    hide InOrderAfter;
    assert run[..|run|] == run;
  }
}
