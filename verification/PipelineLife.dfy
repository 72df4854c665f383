/** What holds of a stream in every interleaving: who may still read it, which channels are
    closed, and what is written last. */
module PipelineLife {
  import opened Options
  import opened StreamLife
  import opened Pipeline
  import Q = StableQueue

  // -------------------------------------------------------------------------
  // Partition: the frames of a stream only ever meet one queue and one handler

  predicate Placed(f: Frame, w: Index) {
    f.OnStream? ==> LaneOf(f.id) == w
  }

  ghost predicate LanePlaced(s: State, w: Index) {
    var l := s.lanes[w];
    && (forall e | e in l.queue :: Placed(e.frame, w))
    && (l.worker.Busy? ==> Placed(l.worker.frame, w))
    && (forall f | f in l.handled :: Placed(f, w))
    && (s.reader.Pushing? ==> Placed(s.reader.frame, s.reader.lane))
  }

  lemma {:induction false} InsertMembers(q: seq<Q.Item<Frame>>, e: Q.Item<Frame>)
    ensures forall x | x in Q.Insert(q, e) :: x == e || x in q
  {
    if q != [] && q[0].priority <= e.priority { InsertMembers(q[1..], e); }
  }

  lemma PlacedStep(s: State, a: Action, w: Index)
    requires LanePlaced(s, w) && Enabled(s, a)
    ensures LanePlaced(Apply(s, a), w)
  {
    hide LanePlaced;
    match a {
      case Push => PlacedPush(s, w);
      case Pop(_) => PlacedLane(s, a, w);
      case Exit(_) => PlacedLane(s, a, w);
      case Drain(_) => PlacedLane(s, a, w);
      case Advance(_, _) => PlacedLane(s, a, w);
      case _ => PlacedReader(s, a, w);
    }
  }

  lemma PlacedPush(s: State, w: Index)
    requires LanePlaced(s, w) && Enabled(s, Push)
    ensures LanePlaced(Apply(s, Push), w)
  {
    hide Q.Insert, LaneOf;
    InsertMembers(s.lanes[s.reader.lane].queue, Q.Item(s.reader.frame, s.reader.priority));
  }

  lemma PlacedLane(s: State, a: Action, w: Index)
    requires LanePlaced(s, w) && Enabled(s, a) && (a.Pop? || a.Exit? || a.Drain? || a.Advance?)
    ensures LanePlaced(Apply(s, a), w)
  {
    hide NextStage, Handled, CanAdvance, At, LaneOf;
  }

  lemma PlacedReader(s: State, a: Action, w: Index)
    requires LanePlaced(s, w) && Enabled(s, a)
    requires !a.Push? && !a.Pop? && !a.Exit? && !a.Drain? && !a.Advance?
    ensures LanePlaced(Apply(s, a), w)
  {
    hide Mine, Used, CanUse, Arrives, Expired, Shut, Accepted, Created, At;
  }

  // -------------------------------------------------------------------------
  // The life of one stream within the connection

  /** The steps that neither read a frame nor touch a stream. */
  predicate Quiet(a: Action) {
    a.Stop? || a.Push? || a.CloseChan? || a.AllExited? || a.HandleGoAway? || a.BeginSweep? || a.Drain? || a.Pop?
    || a.Exit? || a.Close?
  }

  /** What a frame handler is doing for stream x. */
  function TaskOf(s: State, x: Id): Task {
    var worker := s.lanes[LaneOf(x)].worker;
    if worker.Busy? && IsMine(worker.frame, x) then On(worker.frame, worker.stage) else Free
  }

  ghost predicate SweepInv(s: State, x: Id) {
    s.reader.Sweeping? && At(s, x).listed ==> x in s.reader.todo || Closed(At(s, x))
  }

  ghost predicate Alive(s: State, x: Id) {
    LifeInv(TaskOf(s, x), At(s, x)) && SweepInv(s, x)
  }

  lemma AliveUse(s: State, y: Id, u: Use, x: Id)
    requires Alive(s, x) && Enabled(s, Use(y, u))
    ensures Alive(Apply(s, Use(y, u)), x)
  {
    if x == y {
      UseKeeps(TaskOf(s, x), At(s, x), u);
      UseIsLater(At(s, x), u);
    }
    hide Used, LifeInv, LaneOf;
  }

  lemma AliveAdvance(s: State, w: Index, m: Move, x: Id)
    requires Alive(s, x) && LanePlaced(s, w) && Enabled(s, Advance(w, m))
    ensures Alive(Apply(s, Advance(w, m)), x)
  {
    hide Handled, CanAdvance, NextStage, LifeInv, LaneOf;
    var Busy(f, stage) := s.lanes[w].worker;
    HandledIsLater(f, stage, At(s, x), m);
    if IsMine(f, x) { AdvanceKeeps(f, stage, At(s, x), m); }
  }

  lemma AliveAdd(s: State, x: Id)
    requires Alive(s, x) && Enabled(s, Add) && Fresh(s, Add)
    ensures Alive(Apply(s, Add), x)
  {
    var f := s.reader.syn;
    if f.id == x { UnregisteredIsNew(s, x, f, false, Mine(s.read, x) == [f]); }
    SameTaskBirth(s, Add, x);
    hide Mine, LifeInv, LaneOf, TaskOf, Accepted;
  }

  lemma AliveCreate(s: State, fin: bool, x: Id)
    requires Alive(s, x) && Enabled(s, Create(fin)) && Fresh(s, Create(fin))
    ensures Alive(Apply(s, Create(fin)), x)
  {
    if s.next == x { UnregisteredIsNew(s, x, OnStream(x, Syn(0, false), false), fin, Mine(s.read, x) == []); }
    SameTaskBirth(s, Create(fin), x);
    hide Mine, LifeInv, LaneOf, TaskOf, Created;
  }

  lemma UnregisteredIsNew(s: State, x: Id, f: SynFrame, fin: bool, announced: bool)
    requires Alive(s, x) && !At(s, x).registered
    ensures LifeInv(TaskOf(s, x), Accepted(f, announced)) && LifeInv(TaskOf(s, x), Created(fin, announced))
  {
    BornAlive(TaskOf(s, x), f, fin, announced);
    hide ChannelInv, TableInv, FieldInv, LaneOf, Accepted, Created;
  }

  lemma SameTaskBirth(s: State, a: Action, x: Id)
    requires Enabled(s, a) && (a.Add? || a.Create?)
    ensures TaskOf(Apply(s, a), x) == TaskOf(s, x)
  {
    hide Mine, LaneOf, At, Accepted, Created;
  }

  lemma AliveSweep(s: State, a: Action, x: Id)
    requires Alive(s, x) && Enabled(s, a) && (a.SweepOne? || a.EndSweep?)
    ensures Alive(Apply(s, a), x)
  {
    if a.EndSweep? { SweptKeeps(TaskOf(s, x), At(s, x)); } else { ShutKeeps(TaskOf(s, x), At(s, x)); }
    hide LifeInv, LaneOf;
  }

  lemma AliveExpiry(s: State, order: seq<Id>, x: Id)
    requires Alive(s, x) && Enabled(s, Expire(order))
    ensures Alive(Apply(s, Expire(order)), x)
  {
    ExpiryKeeps(TaskOf(s, x), At(s, x));
    hide LifeInv, LaneOf;
  }

  lemma AlivePop(s: State, w: Index, x: Id)
    requires Alive(s, x) && LanePlaced(s, w) && Enabled(s, Pop(w))
    ensures Alive(Apply(s, Pop(w)), x)
  {
    if IsMine(s.lanes[w].queue[0].frame, x) { LookupKeeps(At(s, x), s.lanes[w].queue[0].frame); }
    hide LifeInv, LaneOf;
  }

  lemma AliveRest(s: State, a: Action, x: Id)
    requires Alive(s, x) && Enabled(s, a) && (Quiet(a) || a.Read?) && !a.Pop?
    ensures Alive(Apply(s, a), x)
  {
    hide Mine, LifeInv, LaneOf, Arrives, Pushed;
    SameTask(s, a, x);
  }

  lemma SameTask(s: State, a: Action, x: Id)
    requires Enabled(s, a) && (Quiet(a) || a.Read?) && !a.Pop?
    ensures TaskOf(Apply(s, a), x) == TaskOf(s, x) && At(Apply(s, a), x) == At(s, x)
  {
    hide Mine, LaneOf, Arrives, Q.Insert, Classify, Received, Turned;
  }

  lemma AliveStep(s: State, a: Action, x: Id)
    requires Alive(s, x) && (forall w: Index :: LanePlaced(s, w)) && Enabled(s, a) && Fresh(s, a)
    ensures Alive(Apply(s, a), x)
  {
    hide Alive, LanePlaced;
    match a {
      case Use(y, u) => AliveUse(s, y, u, x);
      case Advance(w, m) => AliveAdvance(s, w, m, x);
      case Add => AliveAdd(s, x);
      case Create(fin) => AliveCreate(s, fin, x);
      case SweepOne(_) => AliveSweep(s, a, x);
      case EndSweep => AliveSweep(s, a, x);
      case Expire(order) => AliveExpiry(s, order, x);
      case Pop(w) => AlivePop(s, w, x);
      case _ => AliveRest(s, a, x);
    }
  }

  ghost predicate LivesInv(s: State, x: Id) {
    && Alive(s, x)
    && forall w: Index :: LanePlaced(s, w)
  }

  lemma LivesStep(s: State, a: Action, x: Id)
    requires LivesInv(s, x) && Enabled(s, a) && Fresh(s, a)
    ensures LivesInv(Apply(s, a), x)
  {
    hide Alive, LanePlaced, Enabled, Apply, Fresh;
    AliveStep(s, a, x);
    forall w: Index ensures LanePlaced(Apply(s, a), w) { PlacedStep(s, a, w); }
  }

  lemma {:induction false} LivesRun(server: bool, run: seq<Action>, x: Id)
    requires Run(server, run).Some? && FreshRun(server, run)
    ensures LivesInv(Run(server, run).value, x)
  {
    if run != [] {
      LivesRun(server, run[..|run| - 1], x);
      hide LivesInv, Enabled, Apply, Fresh;
      LivesStep(Run(server, run[..|run| - 1]).value, run[|run| - 1], x);
    }
  }

  // -------------------------------------------------------------------------
  // What this promises

  /** In every run: startChan and closeChan of a stream are closed at most once, nothing is sent
      on startChan after it was closed, and at most one of the frames that end a stream (DATA
      with FIN by WriteData, RST_STREAM by resetStream) is ever begun, which finishes it. */
  lemma ChannelsAndLastFrame(server: bool, run: seq<Action>, x: Id)
    requires Run(server, run).Some? && FreshRun(server, run)
    ensures var s := Run(server, run).value;
            var st, t := At(s, x), TaskOf(s, x);
            && st.startChan <= 1 && st.closeChan <= 1
            && (t.On? && (t.stage.SendErr? || t.stage.CloseStart?) ==> st.startChan == 0)
            && st.terminal <= 1 && (st.terminal > 0 ==> st.finished)
  {
    LivesRun(server, run, x);
    hide *;
    ChannelsNow(Run(server, run).value, x);
  }

  lemma ChannelsNow(s: State, x: Id)
    requires LivesInv(s, x)
    ensures var st, t := At(s, x), TaskOf(s, x);
            && st.startChan <= 1 && st.closeChan <= 1
            && (t.On? && (t.stage.SendErr? || t.stage.CloseStart?) ==> st.startChan == 0)
            && st.terminal <= 1 && (st.terminal > 0 ==> st.finished)
  {
    hide LanePlaced, TaskOf, At, TableInv, TaskInv;
  }

  // -------------------------------------------------------------------------
  // What never reverts

  lemma LaterStep(s: State, a: Action, x: Id)
    requires Enabled(s, a) && Fresh(s, a) && At(s, x).registered
    ensures Later(At(s, x), At(Apply(s, a), x))
  {
    hide Later;
    SameIsLater(At(s, x));
    match a {
      case Use(y, u) => if y == x { UseIsLater(At(s, x), u); }
      case Advance(w, m) => LaterAdvance(s, w, m, x);
      case Add => LaterBirth(s, a, x);
      case Create(_) => LaterBirth(s, a, x);
      case SweepOne(_) => LaterTable(s, a, x);
      case EndSweep => LaterTable(s, a, x);
      case Expire(_) => LaterTable(s, a, x);
      case _ => SameStreams(s, a, x);
    }
  }

  lemma SameIsLater(st: Stream)
    ensures st.registered ==> Later(st, st)
  {}

  lemma SameStreams(s: State, a: Action, x: Id)
    requires Enabled(s, a) && (Quiet(a) || a.Read?)
    ensures At(Apply(s, a), x) == At(s, x)
  {
    if !a.Pop? { SameTask(s, a, x); }
    hide TaskOf, Mine, Arrives, Classify, Received, Turned;
  }

  lemma LaterAdvance(s: State, w: Index, m: Move, x: Id)
    requires At(s, x).registered && Enabled(s, Advance(w, m))
    ensures Later(At(s, x), At(Apply(s, Advance(w, m)), x))
  {
    SameIsLater(At(s, x));
    var Busy(f, stage) := s.lanes[w].worker;
    HandledIsLater(f, stage, At(s, x), m);
    hide Handled, CanAdvance, NextStage, Later;
  }

  lemma LaterBirth(s: State, a: Action, x: Id)
    requires At(s, x).registered && Enabled(s, a) && Fresh(s, a) && (a.Add? || a.Create?)
    ensures Later(At(s, x), At(Apply(s, a), x))
  {
    SameIsLater(At(s, x));
    hide Later, Mine, Accepted, Created;
  }

  lemma LaterTable(s: State, a: Action, x: Id)
    requires At(s, x).registered && Enabled(s, a) && (a.SweepOne? || a.EndSweep? || a.Expire?)
    ensures Later(At(s, x), At(Apply(s, a), x))
  {
    hide Later, Shut, Expired;
    SameIsLater(At(s, x));
    ShutIsLater(At(s, x));
    ExpiredIsLater(At(s, x));
    UnlistedIsLater(At(s, x));
  }

  lemma ShutIsLater(st: Stream)
    ensures Later(st, Shut(st))
  {}

  lemma ExpiredIsLater(st: Stream)
    ensures Later(st, Expired(st))
  {}

  lemma UnlistedIsLater(st: Stream)
    ensures Later(st, st.(listed := false))
  {}

  /** In every run and every continuation of it: a stream that was added stays added and never
      enters the table again, what is finished, answered or closed stays so, and a reader that
      has met the end has met it. */
  lemma {:induction false} NothingReverts(server: bool, run: seq<Action>, more: seq<Action>, x: Id)
    requires Run(server, run + more).Some? && FreshRun(server, run + more)
    ensures Run(server, run).Some?
    ensures At(Run(server, run).value, x).registered ==>
              Later(At(Run(server, run).value, x), At(Run(server, run + more).value, x))
  {
    if more == [] {
      assert run + more == run;
      SameIsLater(At(Run(server, run).value, x));
    } else {
      hide *;
      var n := |more| - 1;
      var before := run + more[..n];
      assert (run + more)[..|run + more| - 1] == before && (run + more)[|run + more| - 1] == more[n];
      LastStep(server, run + more);
      NothingReverts(server, run, more[..n], x);
      var r, s := Run(server, run).value, Run(server, before).value;
      if At(r, x).registered {
        LaterMeans(At(r, x), At(s, x));
        LaterStep(s, more[n], x);
        LaterTwice(At(r, x), At(s, x), At(Apply(s, more[n]), x));
      }
    }
  }

  lemma LastStep(server: bool, run: seq<Action>)
    requires run != [] && Run(server, run).Some? && FreshRun(server, run)
    ensures var before := run[..|run| - 1];
            && Run(server, before).Some? && FreshRun(server, before)
            && Fresh(Run(server, before).value, run[|run| - 1])
            && Enabled(Run(server, before).value, run[|run| - 1])
            && Run(server, run) == Some(Apply(Run(server, before).value, run[|run| - 1]))
  {
    hide Enabled, Apply;
  }

  lemma LaterMeans(st: Stream, st1: Stream)
    requires Later(st, st1) && st.registered
    ensures st1.registered
  {}

  lemma LaterTwice(st: Stream, st1: Stream, st2: Stream)
    requires Later(st, st1) && Later(st1, st2)
    ensures Later(st, st2)
  {}
}
