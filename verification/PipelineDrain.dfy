/** Drain before close: when Serve handles the GOAWAY and sweeps the table, every frame that it
    has read and kept has been handled. */
module PipelineDrain {
  import opened Options
  import opened StreamLife
  import opened Pipeline
  import Q = StableQueue

  /** Serve has closed closeChan. */
  predicate HasClosed(r: Reader) {
    r.Waiting? || HasWaited(r)
  }

  /** wg.Wait has returned. */
  predicate HasWaited(r: Reader) {
    r.GoingAway? || r.Locking? || r.Sweeping? || r.Done?
  }

  ghost predicate PhaseInv(s: State, w: Index) {
    var l := s.lanes[w];
    && |l.queue| <= QUEUE_SIZE
    && (s.closed <==> HasClosed(s.reader))
    && (l.drained ==> s.closed)
    && (l.worker.Exited? ==> l.drained && l.queue == [])
    && (HasWaited(s.reader) ==> l.worker.Exited?)
  }

  lemma PhaseStep(s: State, a: Action, w: Index)
    requires PhaseInv(s, w) && Enabled(s, a)
    requires a.Push? ==> PhaseInv(s, s.reader.lane)
    ensures PhaseInv(Apply(s, a), w)
  {
    hide Q.Insert, Mine, NextStage, Handled, Used, CanUse, CanAdvance, Arrives, Expired, Shut, Accepted, Created, At;
    hide Served, HasTurn, Overtakes, Listed, Classify, Received, Turned;
    RoutesOnward(s, a);
    match a {
      case Read(_) => case Stop => case Add => case Push => case CloseChan => case AllExited => case HandleGoAway =>
      case BeginSweep => case SweepOne(_) => case EndSweep => case Drain(_) => case Pop(_) => case Exit(_) =>
      case Advance(_, _) => case Use(_, _) => case Create(_) => case Expire(_) => case Close =>
    }
  }

  /** A frame that was read does not lead beyond the loop of Serve. */
  lemma RoutesOnward(s: State, a: Action)
    ensures a.Read? ==> !HasClosed(Classify(s, a.frame))
  {}

  ghost predicate Phases(s: State) {
    forall w: Index :: PhaseInv(s, w)
  }

  lemma PhasesStep(s: State, a: Action)
    requires Phases(s) && Enabled(s, a)
    ensures Phases(Apply(s, a))
  {
    if a.Push? { assert PhaseInv(s, s.reader.lane); }
    hide PhaseInv, Enabled, Apply;
    forall w: Index ensures PhaseInv(Apply(s, a), w) { PhaseStep(s, a, w); }
  }

  lemma {:induction false} PhaseRun(server: bool, run: seq<Action>)
    requires Run(server, run).Some?
    ensures Phases(Run(server, run).value)
  {
    if run != [] {
      var s, a := Run(server, run[..|run| - 1]).value, run[|run| - 1];
      PhaseRun(server, run[..|run| - 1]);
      hide Phases, Enabled, Apply;
      PhasesStep(s, a);
    }
  }

  // -------------------------------------------------------------------------
  // No frame is lost or handled twice

  function Bag(q: seq<Q.Item<Frame>>): multiset<Frame> {
    if q == [] then multiset{} else multiset{q[0].frame} + Bag(q[1..])
  }

  /** The frames handled, in handling and queued in a lane. */
  function Inside(l: Lane): multiset<Frame> {
    multiset(l.handled) + multiset(Current(l.worker)) + Bag(l.queue)
  }

  function Total(ls: seq<Lane>): multiset<Frame> {
    if ls == [] then multiset{} else Total(ls[..|ls| - 1]) + Inside(ls[|ls| - 1])
  }

  ghost predicate Conserved(s: State) {
    multiset(s.read) == Total(s.lanes) + multiset(InHand(s.reader))
  }

  lemma {:induction false} BagInsert(q: seq<Q.Item<Frame>>, e: Q.Item<Frame>)
    ensures Bag(Q.Insert(q, e)) == Bag(q) + multiset{e.frame}
  {
    if q == [] || e.priority < q[0].priority {
      assert ([e] + q)[1..] == q;
    } else {
      BagInsert(q[1..], e);
      assert Q.Insert(q, e)[1..] == Q.Insert(q[1..], e);
    }
  }

  lemma {:induction false} TotalUpdate(ls: seq<Lane>, ls1: seq<Lane>, w: nat, more: multiset<Frame>)
    requires w < |ls| == |ls1| && Inside(ls1[w]) == Inside(ls[w]) + more
    requires forall i | 0 <= i < |ls| && i != w :: ls1[i] == ls[i]
    ensures Total(ls1) == Total(ls) + more
  {
    hide *;
    var n := |ls| - 1;
    TotalLast(ls);
    TotalLast(ls1);
    Regroup(Total(ls[..n]), Inside(ls[n]), more);
    if w < n {
      TotalUpdate(ls[..n], ls1[..n], w, more);
    } else {
      assert ls1[..n] == ls[..n];
    }
  }

  lemma TotalLast(ls: seq<Lane>)
    requires ls != []
    ensures Total(ls) == Total(ls[..|ls| - 1]) + Inside(ls[|ls| - 1])
  {}

  lemma Regroup(a: multiset<Frame>, b: multiset<Frame>, more: multiset<Frame>)
    ensures (a + more) + b == (a + b) + more
    ensures a + (b + more) == (a + b) + more
  {}

  lemma PushedInside(l: Lane, f: Frame, priority: uint8)
    ensures Inside(Pushed(l, f, priority)) == Inside(l) + multiset{f}
  {
    BagInsert(l.queue, Q.Item(f, priority));
    hide Q.Insert, Bag;
  }

  lemma PoppedInside(l: Lane)
    requires l.queue != [] && l.worker.Idle?
    ensures Inside(Popped(l)) == Inside(l)
  {}

  lemma AdvancedInside(l: Lane, f: Frame, next: Option<Stage>)
    requires l.worker.Busy? && l.worker.frame == f
    ensures Inside(Advanced(l, f, next)) == Inside(l)
  {
    hide Bag;
  }

  lemma ConservedStep(s: State, a: Action)
    requires Conserved(s) && Enabled(s, a)
    ensures Conserved(Apply(s, a))
  {
    hide Conserved, Inside, At, NextStage, Handled, CanAdvance, Used;
    match a {
      case Push => ConservedPush(s);
      case Drain(w) =>
        DrainedInside(s.lanes[w]);
        ConservedLane(s, Apply(s, a), w, s.lanes[w].(drained := true));
      case Pop(w) =>
        PoppedInside(s.lanes[w]);
        ConservedLane(s, Apply(s, a), w, Popped(s.lanes[w]));
      case Exit(w) =>
        ExitedInside(s.lanes[w]);
        ConservedLane(s, Apply(s, a), w, s.lanes[w].(worker := Exited));
      case Advance(w, m) => ConservedAdvance(s, w, m);
      case _ => ConservedReader(s, a);
    }
  }

  lemma DrainedInside(l: Lane)
    ensures Inside(l.(drained := true)) == Inside(l)
  {}

  lemma ExitedInside(l: Lane)
    requires l.worker.Idle?
    ensures Inside(l.(worker := Exited)) == Inside(l)
  {}

  /** The steps that change no lane. */
  lemma ConservedReader(s: State, a: Action)
    requires Conserved(s) && Enabled(s, a)
    requires !a.Push? && !a.Drain? && !a.Pop? && !a.Exit? && !a.Advance?
    ensures Conserved(Apply(s, a))
  {
    hide Total, At, Used, Expired, Shut, Accepted, Created, Mine, CanUse, Session.Accept, Session.Allocate;
  }

  lemma ConservedPush(s: State)
    requires Conserved(s) && Enabled(s, Push)
    ensures Conserved(Apply(s, Push))
  {
    var Pushing(f, priority, w) := s.reader;
    PushedInside(s.lanes[w], f, priority);
    TotalUpdate(s.lanes, s.lanes[w := Pushed(s.lanes[w], f, priority)], w, multiset{f});
    hide Total, Inside, Pushed;
    assert Apply(s, Push).lanes == s.lanes[w := Pushed(s.lanes[w], f, priority)];
    assert InHand(s.reader) == [f];
  }

  /** A step that changes one lane and keeps what is inside it. */
  lemma ConservedLane(s: State, s1: State, w: Index, l: Lane)
    requires Conserved(s) && Inside(l) == Inside(s.lanes[w])
    requires s1.lanes == s.lanes[w := l] && s1.read == s.read && s1.reader == s.reader
    ensures Conserved(s1)
  {
    TotalUpdate(s.lanes, s1.lanes, w, multiset{});
    hide Total, Inside;
  }

  lemma ConservedAdvance(s: State, w: Index, m: Move)
    requires Conserved(s) && Enabled(s, Advance(w, m))
    ensures Conserved(Apply(s, Advance(w, m)))
  {
    var Busy(f, stage) := s.lanes[w].worker;
    var next := NextStage(f, stage, At(s, IdOf(f)), m);
    AdvancedInside(s.lanes[w], f, next);
    hide Total, Inside, Advanced, NextStage, Handled, CanAdvance, Conserved, At;
    ConservedLane(s, Apply(s, Advance(w, m)), w, Advanced(s.lanes[w], f, next));
  }

  lemma {:induction false} ConservedRun(server: bool, run: seq<Action>)
    requires Run(server, run).Some?
    ensures Conserved(Run(server, run).value)
  {
    if run != [] {
      ConservedRun(server, run[..|run| - 1]);
      hide Conserved, Enabled, Apply;
      ConservedStep(Run(server, run[..|run| - 1]).value, run[|run| - 1]);
    } else {
      NothingInside(FRAME_WORKERS);
      assert Init(server).lanes == seq(FRAME_WORKERS, _ => FRESH);
    }
  }

  lemma {:induction false} NothingInside(n: nat)
    ensures Total(seq(n, _ => FRESH)) == multiset{}
  {
    if n > 0 {
      NothingInside(n - 1);
      assert seq(n, _ => FRESH)[..n - 1] == seq(n - 1, _ => FRESH);
    }
  }

  // -------------------------------------------------------------------------
  // What draining promises

  /** The frames that the handlers have finished with. */
  function Finished(ls: seq<Lane>): multiset<Frame> {
    if ls == [] then multiset{} else Finished(ls[..|ls| - 1]) + multiset(ls[|ls| - 1].handled)
  }

  lemma {:induction false} AllFinished(ls: seq<Lane>)
    requires forall l | l in ls :: l.worker.Exited? && l.queue == []
    ensures Finished(ls) == Total(ls)
  {
    if ls != [] { AllFinished(ls[..|ls| - 1]); }
  }

  /** In every run: when Serve handles the GOAWAY, sweeps the table and is done, the frame
      handlers have exited, their queues are empty, and the frames that they have finished with
      are exactly those that Serve has read and kept, each as often as it was read. */
  lemma DrainBeforeClose(server: bool, run: seq<Action>)
    requires Run(server, run).Some? && HasWaited(Run(server, run).value.reader)
    ensures var s := Run(server, run).value;
            && (forall w: Index :: s.lanes[w].worker.Exited? && s.lanes[w].queue == [])
            && multiset(s.read) == Finished(s.lanes)
  {
    PhaseRun(server, run);
    ConservedRun(server, run);
    hide *;
    WhenWaited(Run(server, run).value);
  }

  lemma WhenWaited(s: State)
    requires Phases(s) && Conserved(s) && HasWaited(s.reader)
    ensures forall w: Index :: s.lanes[w].worker.Exited? && s.lanes[w].queue == []
    ensures multiset(s.read) == Finished(s.lanes)
  {
    forall w: Index ensures s.lanes[w].worker.Exited? && s.lanes[w].queue == [] {
      assert PhaseInv(s, w);
    }
    forall l | l in s.lanes ensures l.worker.Exited? && l.queue == [] {
      var w: nat :| w < |s.lanes| && s.lanes[w] == l;
    }
    AllFinished(s.lanes);
    hide Total, Finished;
  }

  /** In every run: while a frame can still be pushed no queue has been drained and no frame
      handler has exited; queues stay within their bound. */
  lemma NoPushAfterDrain(server: bool, run: seq<Action>, w: Index)
    requires Run(server, run).Some?
    ensures var s := Run(server, run).value;
            && (s.reader.Reading? || s.reader.Adding? || s.reader.Pushing? ==>
                  !s.lanes[w].drained && !s.lanes[w].worker.Exited?)
            && |s.lanes[w].queue| <= QUEUE_SIZE
  {
    PhaseRun(server, run);
    hide Run;
    assert PhaseInv(Run(server, run).value, w);
  }
}
