/** Runs of a connection: one in which all that the theorem on bytes promises happens, and one for
    each of its conditions in which, without the condition, it does not. */
module PipelineExample {
  import opened Options
  import opened StreamLife
  import opened Pipeline
  import opened PipelineOrder
  import opened PipelineBytes
  import opened PipelineLoss
  import Q = StableQueue
  import R = StreamRead

  // -------------------------------------------------------------------------
  // The states of stream 1 that the runs of a server reach while Serve is reading

  ghost predicate Shape(s: State, read: seq<Frame>, lane: Lane, st: Stream, over: bool) {
    && s.reader == Reading && s.read == read && s.lanes[1] == lane && At(s, 1) == st
    && (1 in s.overtaken) == over
  }

  ghost predicate Leads(run: seq<Action>, s: State) {
    Run(true, run) == Some(s) && FreshRun(true, run)
  }

  ghost predicate Reached(read: seq<Frame>, lane: Lane, st: Stream, over: bool := false) {
    exists run, s :: Leads(run, s) && Shape(s, read, lane, st, over)
  }

  lemma Step(run: seq<Action>, s: State, a: Action)
    requires Leads(run, s) && Enabled(s, a) && Fresh(s, a)
    ensures Leads(run + [a], Apply(s, a))
  {
    hide Enabled, Apply, Fresh;
    assert (run + [a])[..|run|] == run;
  }

  lemma ReachRead(read: seq<Frame>, lane: Lane, st: Stream, f: Frame, over: bool := false)
    requires Reached(read, lane, st, over) && IsMine(f, 1) && !IsSyn(f) && |lane.queue| < QUEUE_SIZE
    ensures Reached(read + [f], Pushed(lane, f, PriorityOf(st)), st,
                    over || Overtakes(lane.queue, f, PriorityOf(st)))
  {
    var run, s :| Leads(run, s) && Shape(s, read, lane, st, over);
    hide Leads, PriorityOf, Q.Insert, Mine, Overtakes;
    Step(run, s, Read(f));
    var s1 := Apply(s, Read(f));
    Step(run + [Read(f)], s1, Push);
    assert Shape(Apply(s1, Push), read + [f], Pushed(lane, f, PriorityOf(st)), st,
                 over || Overtakes(lane.queue, f, PriorityOf(st)));
  }

  lemma ReachPop(read: seq<Frame>, lane: Lane, st: Stream, over: bool := false)
    requires Reached(read, lane, st, over) && lane.worker.Idle? && lane.queue != []
    ensures Reached(read, Popped(lane), st, over)
  {
    var run, s :| Leads(run, s) && Shape(s, read, lane, st, over);
    hide Leads, Mine;
    Step(run, s, Pop(1));
    assert Shape(Apply(s, Pop(1)), read, Popped(lane), st, over);
  }

  lemma ReachAdvance(read: seq<Frame>, lane: Lane, st: Stream, m: Move, over: bool := false)
    requires Reached(read, lane, st, over) && lane.worker.Busy? && IsMine(lane.worker.frame, 1)
    requires CanAdvance(lane.worker.frame, lane.worker.stage, st, m)
    ensures var Busy(f, stage) := lane.worker;
            Reached(read, Advanced(lane, f, NextStage(f, stage, st, m)), Handled(f, stage, st, m), over)
  {
    var run, s :| Leads(run, s) && Shape(s, read, lane, st, over);
    hide Leads, Enabled, Apply, Shape, NextStage, Handled, CanAdvance;
    AdvanceShape(s, read, lane, st, m, over);
    Step(run, s, Advance(1, m));
  }

  lemma AdvanceShape(s: State, read: seq<Frame>, lane: Lane, st: Stream, m: Move, over: bool)
    requires Shape(s, read, lane, st, over) && lane.worker.Busy? && IsMine(lane.worker.frame, 1)
    requires CanAdvance(lane.worker.frame, lane.worker.stage, st, m)
    ensures var Busy(f, stage) := lane.worker;
            && Enabled(s, Advance(1, m))
            && Shape(Apply(s, Advance(1, m)), read, Advanced(lane, f, NextStage(f, stage, st, m)),
                     Handled(f, stage, st, m), over)
  {
    hide NextStage, Handled, CanAdvance;
  }

  lemma ReachUse(read: seq<Frame>, lane: Lane, st: Stream, u: Use, over: bool := false)
    requires Reached(read, lane, st, over) && CanUse(st, u) && !OfExpiry(u)
    ensures Reached(read, lane, Used(st, u), over)
  {
    var run, s :| Leads(run, s) && Shape(s, read, lane, st, over);
    hide Leads, CanUse, Used, Enabled, Apply, Shape, OfExpiry;
    UseShape(s, read, lane, st, u, over);
    Step(run, s, Use(1, u));
  }

  lemma UseShape(s: State, read: seq<Frame>, lane: Lane, st: Stream, u: Use, over: bool)
    requires Shape(s, read, lane, st, over) && CanUse(st, u) && !OfExpiry(u)
    ensures Enabled(s, Use(1, u)) && Shape(Apply(s, Use(1, u)), read, lane, Used(st, u), over)
  {
    hide CanUse, Used, OfExpiry;
  }

  // -------------------------------------------------------------------------
  // Parts that the runs share

  function Opening(priority: uint8): SynFrame {
    OnStream(1, Syn(priority, false), false)
  }

  function Bytes7(fin: bool): Frame { OnStream(1, Data([7]), fin) }
  function Bytes8(fin: bool): Frame { OnStream(1, Data([8]), fin) }

  /** Stream 1 has not been added, and can be. */
  ghost predicate NotYet(s: State, read: seq<Frame>, lane: Lane) {
    && s.reader == Reading && s.read == read && s.lanes[1] == lane && At(s, 1) == NOBODY
    && s.received == 1 && !s.goneAway && s.overtaken == {}
  }

  /** Serve reads the SYN_STREAM, adds the stream, and queues the frame. */
  lemma ReachAdded(run: seq<Action>, s: State, read: seq<Frame>, handled: seq<Frame>, priority: uint8)
    requires Leads(run, s) && NotYet(s, read, Lane([], false, Idle, handled)) && priority <= LEAST_URGENT
    ensures var syn := Opening(priority);
            Reached(read + [syn], Head(syn, priority, [], handled), Accepted(syn, Mine(read + [syn], 1) == [syn]))
  {
    hide Leads, Enabled, Apply, Accepted, Mine, Shape;
    var syn := Opening(priority);
    OpeningIsRead(s, read, handled, priority);
    Step(run, s, Read(syn));
    var s1 := Apply(s, Read(syn));
    OpeningIsAdded(s1, read + [syn], handled, priority);
    Step(run + [Read(syn)], s1, Add);
    var s2 := Apply(s1, Add);
    Step(run + [Read(syn)] + [Add], s2, Push);
    assert Leads(run + [Read(syn)] + [Add] + [Push], Apply(s2, Push));
  }

  lemma OpeningIsRead(s: State, read: seq<Frame>, handled: seq<Frame>, priority: uint8)
    requires NotYet(s, read, Lane([], false, Idle, handled)) && priority <= LEAST_URGENT
    ensures var syn := Opening(priority);
            && Enabled(s, Read(syn)) && Fresh(s, Read(syn))
            && var s1 := Apply(s, Read(syn));
               s1 == s.(reader := Adding(syn), read := read + [syn], received := s1.received)
  {}

  lemma OpeningIsAdded(s: State, read: seq<Frame>, handled: seq<Frame>, priority: uint8)
    requires s.reader == Adding(Opening(priority)) && s.read == read && At(s, 1) == NOBODY
    requires s.lanes[1] == Lane([], false, Idle, handled) && s.overtaken == {}
    ensures Enabled(s, Add) && Fresh(s, Add)
    ensures var s1, syn := Apply(s, Add), Opening(priority);
            && Enabled(s1, Push) && Fresh(s1, Push)
            && Shape(Apply(s1, Push), read, Head(syn, priority, [], handled),
                     Accepted(syn, Mine(read, 1) == [syn]), false)
  {
    hide Mine, Accepted;
  }

  lemma ReachOpened(priority: uint8)
    requires priority <= LEAST_URGENT
    ensures Reached([Opening(priority)], Head(Opening(priority), priority, [], []), Accepted(Opening(priority), true))
  {
    var s := Init(true);
    assert Leads([], s) && NotYet(s, [], Lane([], false, Idle, []));
    hide Leads, NotYet, Reached;
    ReachAdded([], s, [], [], priority);
    MineOne(Opening(priority), 1);
    assert [] + [Opening(priority)] == [Opening(priority)];
  }

  /** The stream once the handler of its first frame has returned. */
  lemma ReachServed(priority: uint8)
    requires priority <= LEAST_URGENT
    ensures Reached([Opening(priority)], Lane([], false, Idle, [Opening(priority)]), Accepted(Opening(priority), true))
  {
    var syn, st := Opening(priority), Accepted(Opening(priority), true);
    var lane := Head(syn, priority, [], []);
    ReachOpened(priority);
    hide Reached;
    ReachPop([syn], lane, st);
    ReachAdvance([syn], Popped(lane), st, Go);
    ReachAdvance([syn], Popped(lane).(worker := Busy(syn, Serving)), st, Go);
  }

  // -------------------------------------------------------------------------
  // What a handler does with data

  predicate HasData(f: Frame) {
    IsMine(f, 1) && Payload(f) != []
  }

  function Head(f: Frame, p: uint8, q: seq<Q.Item<Frame>>, handled: seq<Frame>): Lane {
    Lane([Q.Item(f, p)] + q, false, Idle, handled)
  }

  /** The fields that no handler of data changes. */
  ghost predicate SameButData(st: Stream, st1: Stream) {
    && st1.registered == st.registered && st1.replied == st.replied && st1.finished == st.finished
    && st1.announced == st.announced && st1.torn == st.torn && st1.priority == st.priority && st1.eof == st.eof
  }

  /** Up to the look at replied. */
  lemma ReachCheck(read: seq<Frame>, f: Frame, p: uint8, q: seq<Q.Item<Frame>>, handled: seq<Frame>, st: Stream,
                   over: bool := false)
    requires Reached(read, Head(f, p, q, handled), st, over) && HasData(f) && st.listed
    ensures Reached(read, Lane(q, false, Busy(f, Check), handled), st, over)
  {
    var lane := Head(f, p, q, handled);
    hide Reached;
    ReachPop(read, lane, st, over);
    assert Popped(lane) == Lane(q, false, Busy(f, Lookup), handled) by { assert lane.queue[1..] == q; }
    ReachAdvance(read, Lane(q, false, Busy(f, Lookup), handled), st, Go, over);
  }

  lemma ReachDropped(read: seq<Frame>, f: Frame, p: uint8, q: seq<Q.Item<Frame>>, handled: seq<Frame>, st: Stream,
                     over: bool := false)
    returns (st1: Stream)
    requires Reached(read, Head(f, p, q, handled), st, over) && HasData(f) && st.listed && !st.replied
    ensures Reached(read, Lane(q, false, Idle, handled + [f]), st1, over) && SameButData(st, st1)
    ensures st1.listed && st1.dropped && st1.reading == st.reading && st1.closeChan == st.closeChan
  {
    hide Reached;
    ReachCheck(read, f, p, q, handled, st, over);
    ReachAdvance(read, Lane(q, false, Busy(f, Check), handled), st, Go, over);
    st1 := Handled(f, Check, st, Go);
  }

  lemma ReachOffer(read: seq<Frame>, f: Frame, p: uint8, q: seq<Q.Item<Frame>>, handled: seq<Frame>, st: Stream,
                   over: bool := false)
    returns (st1: Stream)
    requires Reached(read, Head(f, p, q, handled), st, over) && HasData(f) && st.listed && st.replied
    ensures Reached(read, Lane(q, false, Busy(f, Offer), handled), st1, over) && SameButData(st, st1)
    ensures st1.listed && st1.dropped == st.dropped && st1.reading == st.reading && st1.closeChan == st.closeChan
  {
    hide Reached;
    ReachCheck(read, f, p, q, handled, st, over);
    ReachAdvance(read, Lane(q, false, Busy(f, Check), handled), st, Go, over);
    st1 := Handled(f, Check, st, Go);
  }

  lemma ReachSkipped(read: seq<Frame>, f: Frame, p: uint8, q: seq<Q.Item<Frame>>, handled: seq<Frame>, st: Stream,
                     over: bool := false)
    returns (st1: Stream)
    requires Reached(read, Head(f, p, q, handled), st, over) && HasData(f) && st.listed && st.replied
    requires Closed(st) && !f.fin
    ensures Reached(read, Lane(q, false, Idle, handled + [f]), st1, over) && SameButData(st, st1)
    ensures st1.listed && st1.dropped == st.dropped && st1.reading == st.reading && st1.closeChan == st.closeChan
  {
    hide Reached;
    st1 := ReachOffer(read, f, p, q, handled, st, over);
    ReachAdvance(read, Lane(q, false, Busy(f, Offer), handled), st1, Skip, over);
    st1 := Handled(f, Offer, st1, Skip);
  }

  /** The application takes the data. */
  lemma ReachTaken(read: seq<Frame>, f: Frame, p: uint8, q: seq<Q.Item<Frame>>, handled: seq<Frame>, st: Stream,
                   over: bool := false)
    returns (st1: Stream)
    requires Reached(read, Head(f, p, q, handled), st, over) && HasData(f) && st.listed && st.replied
    requires st.reading.unread.None? && !st.finished
    ensures Reached(read, Lane(q, false, Idle, handled + [f]), st1, over) && SameButData(st, st1)
    ensures st1.listed && st1.dropped == st.dropped
    ensures st1.reading == R.Outcome(st.reading.returned + Payload(f), None)
    ensures f.fin ==> Closed(st1)
  {
    hide Reached;
    var call := R.ReadData(R.Payload(Payload(f)));
    st1 := ReachOffer(read, f, p, q, handled, st, over);
    ReachAdvance(read, Lane(q, false, Busy(f, Offer), handled), st1, Hand(call), over);
    st1 := Handled(f, Offer, st1, Hand(call));
    if f.fin { st1 := ReachEnded(read, f, q, handled, st1, over); }
  }

  lemma ReachEnded(read: seq<Frame>, f: Frame, q: seq<Q.Item<Frame>>, handled: seq<Frame>, st: Stream,
                   over: bool := false)
    returns (st1: Stream)
    requires Reached(read, Lane(q, false, Busy(f, FinishShut), handled), st, over) && HasData(f) && !st.finished
    ensures Reached(read, Lane(q, false, Idle, handled + [f]), st1, over) && SameButData(st, st1)
    ensures st1.listed == st.listed && st1.dropped == st.dropped && st1.reading == st.reading && Closed(st1)
  {
    hide Reached;
    ReachAdvance(read, Lane(q, false, Busy(f, FinishShut), handled), st, Go, over);
    st1 := Handled(f, FinishShut, st, Go);
    ReachAdvance(read, Lane(q, false, Busy(f, FinishRemove), handled), st1, Go, over);
    st1 := Handled(f, FinishRemove, st1, Go);
  }

  // -------------------------------------------------------------------------
  // The runs

  /** The peer sends a byte with its last frame; the application reads it and meets the end. */
  lemma ReadsToTheEnd() returns (run: seq<Action>, s: State)
    ensures Leads(run, s) && Sound(ViewOf(s, 1)) && Clean(Mine(s.read, 1))
    ensures At(s, 1).eof && At(s, 1).reading.returned == [7]
  {
    hide Reached, Clean;
    var syn, st := Opening(0), Accepted(Opening(0), true);
    var a := Bytes7(true);
    ReachServed(0);
    ReachUse([syn], Lane([], false, Idle, [syn]), st, Answer);
    st := Used(st, Answer);
    ReachRead([syn], Lane([], false, Idle, [syn]), st, a);
    assert [syn] + [a] == [syn, a];
    st := ReachTaken([syn, a], a, 0, [], [syn], st);
    run, s := AtTheEnd([syn, a], Lane([], false, Idle, [syn, a]), st);
    MineTwo(syn, a);
    CleanTwo(syn, a);
  }

  lemma CleanTwo(f: Frame, g: Frame)
    requires !Ends(f)
    ensures Clean([f, g])
  {}

  lemma MineTwo(f: Frame, g: Frame)
    requires IsMine(f, 1) && IsMine(g, 1)
    ensures Mine([f, g], 1) == [f, g]
  {
    MineOne(f, 1);
    MineLast([f], g, 1);
  }

  lemma MineThree(f: Frame, g: Frame, h: Frame)
    requires IsMine(f, 1) && IsMine(g, 1) && IsMine(h, 1)
    ensures Mine([f, g, h], 1) == [f, g, h]
  {
    MineTwo(f, g);
    MineLast([f, g], h, 1);
    assert [f, g] + [h] == [f, g, h];
  }

  /** The application reads until it meets the end. */
  lemma AtTheEnd(read: seq<Frame>, lane: Lane, st: Stream) returns (run: seq<Action>, s: State)
    requires Reached(read, lane, st) && st.registered && Closed(st) && st.reading.unread.None?
    ensures Leads(run, s) && s.read == read && At(s, 1).eof && At(s, 1).reading == st.reading
    ensures At(s, 1).announced == st.announced && At(s, 1).torn == st.torn && At(s, 1).dropped == st.dropped
    ensures 1 !in s.overtaken
  {
    ReachUse(read, lane, st, ReadEof);
    hide Leads;
    run, s :| Leads(run, s) && Shape(s, read, lane, Used(st, ReadEof), false);
  }

  /** Data that meets a handler before the stream is answered is lost: the application meets the
      end of the stream with the later bytes only. */
  lemma UnansweredDataIsLost() returns (run: seq<Action>, s: State)
    ensures Leads(run, s) && Sorted(s, 1) && !At(s, 1).torn && Clean(Mine(s.read, 1))
    ensures At(s, 1).eof && At(s, 1).reading.returned == [8] && Payloads(Mine(s.read, 1)) == [7, 8]
  {
    hide Reached;
    var syn, st := Opening(0), Accepted(Opening(0), true);
    var a, b := Bytes7(false), Bytes8(true);
    ReachServed(0);
    ReachRead([syn], Lane([], false, Idle, [syn]), st, a);
    assert [syn] + [a] == [syn, a];
    st := ReachDropped([syn, a], a, 0, [], [syn], st);
    ReachUse([syn, a], Lane([], false, Idle, [syn, a]), st, Answer);
    UseIsLater(st, Answer);
    st := Used(st, Answer);
    ReachRead([syn, a], Lane([], false, Idle, [syn, a]), st, b);
    assert [syn, a] + [b] == [syn, a, b];
    st := ReachTaken([syn, a, b], b, 0, [], [syn, a], st);
    run, s := AtTheEnd([syn, a, b], Lane([], false, Idle, [syn, a, b]), st);
    MineThree(syn, a, b);
    PayloadsThree(syn, a, b);
  }

  lemma PayloadsThree(f: Frame, g: Frame, h: Frame)
    ensures Payloads([f, g, h]) == Payload(f) + Payload(g) + Payload(h)
  {
    hide Payload;
    PayloadsOne(f);
    PayloadsOne(g);
    PayloadsOne(h);
    PayloadsAppend([f], [g]);
    PayloadsAppend([f] + [g], [h]);
    assert [f] + [g] + [h] == [f, g, h];
  }

  // -------------------------------------------------------------------------
  // Data before the stream

  lemma ReachQueued(a: Frame) returns (run: seq<Action>, s: State)
    requires HasData(a) && !IsSyn(a)
    ensures Leads(run, s) && NotYet(s, [a], Lane([Q.Item(a, LEAST_URGENT)], false, Idle, []))
  {
    var s0 := Init(true);
    assert Leads([], s0);
    hide Leads, Mine;
    Step([], s0, Read(a));
    var s1 := Apply(s0, Read(a));
    Step([] + [Read(a)], s1, Push);
    run, s := [] + [Read(a)] + [Push], Apply(s1, Push);
    assert s.read == [a];
  }

  lemma ReachFetched(a: Frame) returns (run: seq<Action>, s: State)
    requires HasData(a) && !IsSyn(a)
    ensures Leads(run, s) && NotYet(s, [a], Lane([], false, Busy(a, Lookup), []))
  {
    var lane := Lane([Q.Item(a, LEAST_URGENT)], false, Idle, []);
    var run0, s0 := ReachQueued(a);
    hide Leads, Mine;
    Step(run0, s0, Pop(1));
    run, s := run0 + [Pop(1)], Apply(s0, Pop(1));
    assert lane.queue[1..] == [];
  }

  /** Serve has read data of stream 1, and its handler has not found the stream. */
  lemma ReachEarly(a: Frame) returns (run: seq<Action>, s: State)
    requires HasData(a) && !IsSyn(a)
    ensures Leads(run, s) && NotYet(s, [a], Lane([], false, Idle, [a]))
  {
    var run0, s0 := ReachFetched(a);
    hide Leads, Mine;
    Step(run0, s0, Advance(1, Go));
    run, s := run0 + [Advance(1, Go)], Apply(s0, Advance(1, Go));
    assert [] + [a] == [a];
  }

  /** Then it reads the SYN_STREAM. */
  lemma ReachLate(a: Frame)
    requires HasData(a) && !IsSyn(a)
    ensures Reached([a, Opening(0)], Head(Opening(0), 0, [], [a]), Accepted(Opening(0), false))
  {
    var run, s := ReachEarly(a);
    hide Leads, NotYet, Reached, Mine;
    ReachAdded(run, s, [a], [a], 0);
    MineTwo(a, Opening(0));
    assert [a] + [Opening(0)] == [a, Opening(0)];
  }

  /** Data that is read before its stream is added can be lost, although the stream is answered
      before its other data. */
  lemma EarlyDataIsLost() returns (run: seq<Action>, s: State)
    ensures Leads(run, s) && 1 !in s.overtaken && !At(s, 1).torn && !At(s, 1).dropped && Clean(Mine(s.read, 1))
    ensures At(s, 1).eof && At(s, 1).reading.returned == [8] && Payloads(Mine(s.read, 1)) == [7, 8]
  {
    hide Reached;
    var syn, st := Opening(0), Accepted(Opening(0), false);
    var a, b := Bytes7(false), Bytes8(true);
    ReachLate(a);
    var lane := Head(syn, 0, [], [a]);
    ReachPop([a, syn], lane, st);
    ReachAdvance([a, syn], Popped(lane), st, Go);
    ReachAdvance([a, syn], Popped(lane).(worker := Busy(syn, Serving)), st, Go);
    assert Popped(lane).queue == [];
    var idle := Lane([], false, Idle, [a] + [syn]);
    ReachUse([a, syn], idle, st, Answer);
    st := Used(st, Answer);
    ReachRead([a, syn], idle, st, b);
    assert [a, syn] + [b] == [a, syn, b];
    st := ReachTaken([a, syn, b], b, 0, [], [a] + [syn], st);
    run, s := AtTheEnd([a, syn, b], Lane([], false, Idle, [a] + [syn] + [b]), st);
    MineThree(a, syn, b);
    PayloadsThree(a, syn, b);
  }

  // -------------------------------------------------------------------------
  // Order, the end, and resets

  /** A stream that is made more urgent while its data is queued is read out of order. */
  lemma UrgencyReorders() returns (run: seq<Action>, s: State)
    ensures Leads(run, s) && Intact(At(s, 1)) && Clean(Mine(s.read, 1))
    ensures At(s, 1).reading.returned == [8, 7] && Payloads(Mine(s.read, 1)) == [7, 8]
  {
    hide Reached;
    var syn, st := Opening(7), Accepted(Opening(7), true);
    var a, b := Bytes7(false), Bytes8(false);
    ReachServed(7);
    ReachUse([syn], Lane([], false, Idle, [syn]), st, Answer);
    st := Used(st, Answer);
    ReachRead([syn], Lane([], false, Idle, [syn]), st, a);
    assert [syn] + [a] == [syn, a];
    ReachUse([syn, a], Head(a, 7, [], [syn]), st, SetPriority(0));
    st := Used(st, SetPriority(0));
    ReachRead([syn, a], Head(a, 7, [], [syn]), st, b);
    assert [syn, a] + [b] == [syn, a, b];
    GoesFirst(a, b, [syn]);
    st := ReachTaken([syn, a, b], b, 0, [Q.Item(a, 7)], [syn], st, true);
    assert Lane([Q.Item(a, 7)], false, Idle, [syn] + [b]) == Head(a, 7, [], [syn] + [b]);
    st := ReachTaken([syn, a, b], a, 7, [], [syn] + [b], st, true);
    run, s := Extract([syn, a, b], Lane([], false, Idle, [syn] + [b] + [a]), st);
    MineThree(syn, a, b);
    PayloadsThree(syn, a, b);
  }

  lemma GoesFirst(a: Frame, b: Frame, handled: seq<Frame>)
    ensures Pushed(Head(a, 7, [], handled), b, 0) == Head(b, 0, [Q.Item(a, 7)], handled)
  {
    assert [Q.Item(b, 0)] + [Q.Item(a, 7)] == [Q.Item(b, 0), Q.Item(a, 7)];
  }

  lemma Extract(read: seq<Frame>, lane: Lane, st: Stream) returns (run: seq<Action>, s: State)
    requires Reached(read, lane, st, true)
    ensures Leads(run, s) && s.read == read && At(s, 1) == st
  {
    run, s :| Leads(run, s) && Shape(s, read, lane, st, true);
  }

  /** Data behind the last frame of the peer can be lost, although the select in the handler
      may as well hand it over. */
  lemma DataBehindTheEndIsLost() returns (run: seq<Action>, s: State)
    ensures Leads(run, s) && Sound(ViewOf(s, 1))
    ensures At(s, 1).eof && At(s, 1).reading.returned == [7] && Payloads(Mine(s.read, 1)) == [7, 8]
  {
    hide Reached;
    var syn, st := Opening(0), Accepted(Opening(0), true);
    var a, b := Bytes7(true), Bytes8(false);
    ReachServed(0);
    ReachUse([syn], Lane([], false, Idle, [syn]), st, Answer);
    st := Used(st, Answer);
    ReachRead([syn], Lane([], false, Idle, [syn]), st, a);
    assert [syn] + [a] == [syn, a];
    st := ReachTaken([syn, a], a, 0, [], [syn], st);
    ReachRead([syn, a], Lane([], false, Idle, [syn, a]), st, b);
    assert [syn, a] + [b] == [syn, a, b];
    st := ReachSkipped([syn, a, b], b, 0, [], [syn, a], st);
    run, s := AtTheEnd([syn, a, b], Lane([], false, Idle, [syn, a, b]), st);
    MineThree(syn, a, b);
    PayloadsThree(syn, a, b);
  }

  /** Data that is queued when the application resets the stream is lost. */
  lemma ResetLosesData() returns (run: seq<Action>, s: State)
    ensures Leads(run, s) && Sorted(s, 1) && !At(s, 1).dropped && Clean(Mine(s.read, 1))
    ensures At(s, 1).eof && At(s, 1).reading.returned == [] && Payloads(Mine(s.read, 1)) == [7]
  {
    hide Reached;
    var syn, st := Opening(0), Accepted(Opening(0), true);
    var a := Bytes7(false);
    ReachServed(0);
    ReachRead([syn], Lane([], false, Idle, [syn]), st, a);
    assert [syn] + [a] == [syn, a];
    var lane := Head(a, 0, [], [syn]);
    ReachUse([syn, a], lane, st, ResetRemove);
    ReachUse([syn, a], lane, Used(st, ResetRemove), ResetShut);
    run, s := AtTheEnd([syn, a], lane, Used(Used(st, ResetRemove), ResetShut));
    MineTwo(syn, a);
    PayloadsAppend([syn], [a]);
    PayloadsOne(syn);
    PayloadsOne(a);
    assert [syn] + [a] == [syn, a];
  }
}
