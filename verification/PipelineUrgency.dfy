/** A condition that the application can keep and that keeps the frames of a stream in order: the
    stream is never made more urgent. */
module PipelineUrgency {
  import opened StreamLife
  import opened Pipeline
  import opened PipelineLife
  import opened PipelineOrder
  import Q = StableQueue

  /** The application makes stream x more urgent, or less urgent than any priority on the wire. */
  predicate Urges(s: State, a: Action, x: Id) {
    a.Use? && a.id == x && a.use.SetPriority? && !(At(s, x).priority <= a.use.priority <= LEAST_URGENT)
  }

  ghost predicate NeverUrged(server: bool, run: seq<Action>, x: Id) {
    run != [] ==>
      var before := run[..|run| - 1];
      NeverUrged(server, before, x)
      && (Run(server, before).Some? ==> !Urges(Run(server, before).value, run[|run| - 1], x))
  }

  // -------------------------------------------------------------------------
  // The invariant

  /** The stream has been added before any of its other frames was read; or it has not been added,
      and no frame of it was read, save the one with which it is being added. */
  ghost predicate Calm(v: View, x: Id) {
    if v.stream.registered then v.stream.announced
    else Mine(v.read, x) == if v.reader.Adding? then Mine([v.reader.syn], x) else []
  }

  ghost predicate NoneAbove(q: seq<Q.Item<Frame>>, x: Id, p: uint8) {
    forall e | e in q && IsMine(e.frame, x) :: e.priority <= p
  }

  /** No frame of x that was read is less urgent than those that will be. */
  ghost predicate Urgency(v: View, x: Id) {
    && (v.stream.registered ==> NoneAbove(v.lane.queue, x, PriorityOf(v.stream)))
    && (v.reader.Pushing? && IsMine(v.reader.frame, x) ==>
          && NoneAbove(v.lane.queue, x, v.reader.priority)
          && (v.stream.registered ==> v.reader.priority <= PriorityOf(v.stream)))
  }

  ghost predicate UrgencyInv(v: View, x: Id) {
    && v.stream.priority <= LEAST_URGENT && (v.stream.announced ==> v.stream.registered)
    && (v.reader.Adding? ==> v.reader.syn.content.priority <= LEAST_URGENT)
    && (v.reader.Adding? && IsMine(v.reader.syn, x) ==> Mine(v.read, x) != [])
    && (Calm(v, x) ==> Urgency(v, x) && !v.overtaken)
  }

  // -------------------------------------------------------------------------
  // Steps on a view

  /** st1 is st, not more urgent. */
  ghost predicate Calmer(st: Stream, st1: Stream) {
    && st1.registered == st.registered && st1.announced == st.announced
    && PriorityOf(st) <= PriorityOf(st1) && st1.priority <= LEAST_URGENT
  }

  /** A step that leaves the frames of x in the queue and in the hands of Serve where they are. */
  lemma UrgencySame(v: View, v1: View, x: Id)
    requires UrgencyInv(v, x) && Calmer(v.stream, v1.stream) && v1.overtaken == v.overtaken
    requires v1.read == v.read && v1.lane.queue == v.lane.queue
    requires v1.reader == v.reader || (InHand(v.reader) == InHand(v1.reader) == [])
    ensures UrgencyInv(v1, x)
  {
    hide Mine, PriorityOf;
  }

  lemma UrgencyRead(v: View, x: Id, f: Frame, r: Reader)
    requires UrgencyInv(v, x) && v.reader.Reading? && InHand(r) == [f] && Arrives(f)
    requires r.Adding? <==> IsSyn(f)
    requires r.Pushing? && IsMine(f, x) ==> r.priority == PriorityOf(v.stream)
    ensures UrgencyInv(v.(reader := r, read := v.read + [f]), x)
  {
    MineLast(v.read, f, x);
    MineOne(f, x);
    MineNone(x);
    hide Mine, PriorityOf;
  }

  /** addStreamFrame for another stream. */
  lemma UrgencyAddOther(v: View, x: Id, r: Reader)
    requires UrgencyInv(v, x) && v.reader.Adding? && !IsMine(v.reader.syn, x)
    requires r.Pushing? && r.frame == v.reader.syn
    ensures UrgencyInv(v.(reader := r), x)
  {
    MineOne(v.reader.syn, x);
    hide Mine, PriorityOf;
  }

  /** Before a stream is added its lane has no frame of it. */
  lemma NothingYet(v: View, x: Id)
    requires Fifo(v, x) && Calm(v, x) && !v.stream.registered
    ensures forall e | e in v.lane.queue :: !IsMine(e.frame, x)
  {
    MineNone(x);
    var hand := Mine(InHand(v.reader), x);
    assert |Mine(v.read, x)| <= |hand| by { hide Mine; }
    hide Mine, Queued;
    assert Queued(v.lane.queue, x) == [];
    NoneQueued(v.lane.queue, x);
  }

  lemma {:induction false} NoneQueued(q: seq<Q.Item<Frame>>, x: Id)
    requires Queued(q, x) == []
    ensures forall e | e in q :: !IsMine(e.frame, x)
  {
    if q != [] { NoneQueued(q[1..], x); }
  }

  lemma AcceptedIs(f: SynFrame, announced: bool)
    ensures var st := Accepted(f, announced);
            st.registered && st.announced == announced && st.priority == PriorityOf(st) == f.content.priority
  {}

  lemma UrgencyAdd(v: View, x: Id, r: Reader)
    requires UrgencyInv(v, x) && OrderInv(v, x)
    requires v.reader.Adding? && IsMine(v.reader.syn, x) && !v.stream.registered
    requires r.Pushing? && r.frame == v.reader.syn && r.priority == r.frame.content.priority
    ensures UrgencyInv(v.(reader := r, stream := Accepted(r.frame, Mine(v.read, x) == [r.frame])), x)
  {
    hide Mine, Q.Ordered, Accepted, PriorityOf, Fifo;
    MineOne(v.reader.syn, x);
    AcceptedIs(r.frame, Mine(v.read, x) == [r.frame]);
    if Mine(v.read, x) == [r.frame] { NothingYet(v, x); }
  }

  lemma UrgencyCreate(v: View, x: Id, fin: bool)
    requires UrgencyInv(v, x) && OrderInv(v, x) && !v.stream.registered
    ensures UrgencyInv(v.(stream := Created(fin, Mine(v.read, x) == [])), x)
  {
    MineNone(x);
    if Mine(v.read, x) == [] && Calm(v, x) { NothingYet(v, x); HandIsMine(v, x); }
    if v.reader.Adding? { MineOne(v.reader.syn, x); }
    hide Mine, Queued, Q.Ordered;
  }

  lemma HandIsMine(v: View, x: Id)
    requires Fifo(v, x) && Mine(v.read, x) == []
    ensures v.reader.Pushing? ==> !IsMine(v.reader.frame, x)
    ensures v.reader.Adding? ==> !IsMine(v.reader.syn, x)
  {
    if v.reader.Pushing? { MineOne(v.reader.frame, x); }
    if v.reader.Adding? { MineOne(v.reader.syn, x); }
    hide Mine, Queued;
    assert |Mine(InHand(v.reader), x)| == 0;
  }

  lemma UrgencyPush(v: View, x: Id)
    requires UrgencyInv(v, x) && v.reader.Pushing?
    ensures UrgencyInv(AfterPush(v).(overtaken := v.overtaken || PutsInFront(v, x)), x)
  {
    hide Q.Insert, PriorityOf, Mine;
    InsertMembers(v.lane.queue, Q.Item(v.reader.frame, v.reader.priority));
  }

  lemma UrgencyPop(v: View, x: Id)
    requires UrgencyInv(v, x) && v.lane.worker.Idle? && v.lane.queue != []
    ensures UrgencyInv(v.(lane := Popped(v.lane)), x)
  {
    hide PriorityOf, Mine;
  }

  // -------------------------------------------------------------------------
  // Steps of the connection

  lemma UseIsCalmer(st: Stream, u: Use)
    requires CanUse(st, u) && st.priority <= LEAST_URGENT
    requires u.SetPriority? ==> st.priority <= u.priority <= LEAST_URGENT
    ensures Calmer(st, Used(st, u))
  {
    match u {
      case Open => case Answer => case ReadRest(_) => case ReadEof => case SetPriority(_) =>
      case CloseRemove => case WriteFin => case ResetRemove => case ResetShut => case ResetFinish =>
      case ExpiryShut(_) => case ExpiryFinish(_) => case ExpiryWritten(_) =>
    }
  }

  lemma AdvanceIsCalmer(f: Frame, stage: Stage, st: Stream, m: Move)
    requires st.priority <= LEAST_URGENT
    ensures Calmer(st, Handled(f, stage, st, m))
  {
    HandledIsLater(f, stage, st, m);
    HandledKeeps(f, stage, st, m);
    hide Handled;
  }

  lemma TableIsCalmer(st: Stream)
    requires st.priority <= LEAST_URGENT
    ensures Calmer(st, st) && Calmer(st, Shut(st)) && Calmer(st, Expired(st)) && Calmer(st, st.(listed := false))
  {
    hide Calmer, Shut, Expired;
    ShutIsCalmer(st);
    ExpiredIsCalmer(st);
    UnlistedIsCalmer(st);
  }

  lemma ShutIsCalmer(st: Stream)
    requires st.priority <= LEAST_URGENT
    ensures Calmer(st, Shut(st))
  {
    hide Closed;
  }

  lemma ExpiredIsCalmer(st: Stream)
    requires st.priority <= LEAST_URGENT
    ensures Calmer(st, Expired(st))
  {}

  lemma UnlistedIsCalmer(st: Stream)
    requires st.priority <= LEAST_URGENT
    ensures Calmer(st, st) && Calmer(st, st.(listed := false))
  {}

  ghost predicate UrgencyReady(s: State, x: Id) {
    OrderReady(s, x) && UrgencyInv(ViewOf(s, x), x)
  }

  lemma UrgencyStepRead(s: State, f: Frame, x: Id)
    requires UrgencyReady(s, x) && Enabled(s, Read(f))
    ensures UrgencyInv(ViewOf(Apply(s, Read(f)), x), x)
  {
    hide OrderReady, UrgencyInv, Arrives, PriorityOf, Mine, LaneOf, Calmer;
    var v, r := ViewOf(s, x), Classify(s, f);
    if InHand(r) == [f] {
      UrgencyRead(v, x, f, r);
    } else {
      assert v.read + [] == v.read;
      PriorityFits(v, x);
      TableIsCalmer(v.stream);
      UrgencySame(v, v.(reader := r), x);
    }
  }

  lemma PriorityFits(v: View, x: Id)
    requires UrgencyInv(v, x)
    ensures v.stream.priority <= LEAST_URGENT
  {}

  lemma UrgencyStepAdd(s: State, x: Id)
    requires UrgencyReady(s, x) && Enabled(s, Add) && Fresh(s, Add)
    ensures UrgencyInv(ViewOf(Apply(s, Add), x), x)
  {
    hide OrderInv, UrgencyInv, LanePlaced, Mine, LaneOf, Accepted;
    var v, r := ViewOf(s, x), Apply(s, Add).reader;
    if IsMine(s.reader.syn, x) { UrgencyAdd(v, x, r); } else { UrgencyAddOther(v, x, r); }
  }

  lemma UrgencyStepCreate(s: State, fin: bool, x: Id)
    requires UrgencyReady(s, x) && Enabled(s, Create(fin)) && Fresh(s, Create(fin))
    ensures UrgencyInv(ViewOf(Apply(s, Create(fin)), x), x)
  {
    hide OrderInv, UrgencyInv, LanePlaced, Mine, LaneOf, Created;
    if s.next == x { UrgencyCreate(ViewOf(s, x), x, fin); }
  }

  lemma UrgencyStepPush(s: State, x: Id)
    requires UrgencyReady(s, x) && Enabled(s, Push)
    ensures UrgencyInv(ViewOf(Apply(s, Push), x), x)
  {
    hide OrderInv, UrgencyInv, Pushed, LanePlaced, Overtakes;
    assert LanePlaced(s, s.reader.lane);
    ReaderPlaced(s, s.reader.lane);
    OvertakersAreOnStreams(s.lanes[s.reader.lane].queue, s.reader.frame, s.reader.priority);
    var v := ViewOf(s, x);
    if s.reader.lane == LaneOf(x) {
      UrgencyPush(v, x);
    } else {
      UrgencyPushOther(v, x);
    }
  }

  /** Another lane receives the frame. */
  lemma UrgencyPushOther(v: View, x: Id)
    requires UrgencyInv(v, x) && v.reader.Pushing? && !IsMine(v.reader.frame, x)
    ensures UrgencyInv(v.(reader := Reading), x)
  {
    hide Mine, PriorityOf;
  }

  lemma UrgencyStepPop(s: State, w: Index, x: Id)
    requires UrgencyReady(s, x) && Enabled(s, Pop(w))
    ensures UrgencyInv(ViewOf(Apply(s, Pop(w)), x), x)
  {
    hide OrderInv, UrgencyInv, LanePlaced, Popped, LaneOf;
    if w == LaneOf(x) { UrgencyPop(ViewOf(s, x), x); }
  }

  lemma UrgencyStepAdvance(s: State, w: Index, m: Move, x: Id)
    requires UrgencyReady(s, x) && Enabled(s, Advance(w, m))
    ensures UrgencyInv(ViewOf(Apply(s, Advance(w, m)), x), x)
  {
    hide OrderReady, UrgencyInv, LaneOf, Handled, CanAdvance, NextStage, Calmer;
    var Busy(f, stage) := s.lanes[w].worker;
    PriorityFits(ViewOf(s, x), x);
    TableIsCalmer(At(s, x));
    if IsMine(f, x) { AdvanceIsCalmer(f, stage, At(s, x), m); }
    UrgencySame(ViewOf(s, x), ViewOf(Apply(s, Advance(w, m)), x), x);
  }

  /** The steps that leave the frames of all streams where they are. */
  lemma UrgencyStepRest(s: State, a: Action, x: Id)
    requires UrgencyReady(s, x) && Enabled(s, a) && !Urges(s, a, x)
    requires !a.Read? && !a.Add? && !a.Create? && !a.Push? && !a.Pop? && !a.Advance?
    ensures UrgencyInv(ViewOf(Apply(s, a), x), x)
  {
    hide OrderReady, UrgencyInv, Used, CanUse, Shut, Expired, Calmer, LaneOf, Listed;
    PriorityFits(ViewOf(s, x), x);
    TableIsCalmer(At(s, x));
    if a.Use? && a.id == x { UseIsCalmer(At(s, x), a.use); }
    UrgencySame(ViewOf(s, x), ViewOf(Apply(s, a), x), x);
  }

  lemma UrgencyStep(s: State, a: Action, x: Id)
    requires UrgencyReady(s, x) && Enabled(s, a) && Fresh(s, a) && !Urges(s, a, x)
    ensures UrgencyReady(Apply(s, a), x)
  {
    hide OrderReady, UrgencyInv, Enabled, Apply, Fresh, Urges;
    OrderReadyStep(s, a, x);
    match a {
      case Read(f) => UrgencyStepRead(s, f, x);
      case Add => UrgencyStepAdd(s, x);
      case Create(fin) => UrgencyStepCreate(s, fin, x);
      case Push => UrgencyStepPush(s, x);
      case Pop(w) => UrgencyStepPop(s, w, x);
      case Advance(w, m) => UrgencyStepAdvance(s, w, m, x);
      case _ => UrgencyStepRest(s, a, x);
    }
  }

  lemma {:induction false} UrgencyRun(server: bool, run: seq<Action>, x: Id)
    requires Run(server, run).Some? && FreshRun(server, run) && NeverUrged(server, run, x)
    ensures UrgencyReady(Run(server, run).value, x)
  {
    if run != [] {
      UrgencyRun(server, run[..|run| - 1], x);
      hide UrgencyReady, Enabled, Apply, Fresh, Urges;
      UrgencyStep(Run(server, run[..|run| - 1]).value, run[|run| - 1], x);
    } else {
      OrderRun(server, run, x);
      hide OrderReady;
    }
  }

  /** In every run: the frames of a stream are handled in the order in which they were read,
      however urgent other frames are and however the handlers interleave, if none of them was
      read before the stream was added and its priority was never lowered in number or set above
      7. */
  lemma PriorityKeepsOrder(server: bool, run: seq<Action>, x: Id)
    requires Run(server, run).Some? && FreshRun(server, run)
    requires NeverUrged(server, run, x) && At(Run(server, run).value, x).announced
    ensures x !in Run(server, run).value.overtaken
    ensures InOrder(Run(server, run).value, x)
  {
    UrgencyRun(server, run, x);
    InOrderIsFifo(server, run, x);
    hide Run, InOrder, OrderReady, Urgency;
  }
}
