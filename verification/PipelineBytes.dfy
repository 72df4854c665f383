/** What the application reads from a stream: the bytes of its DATA frames, in the order of the
    wire, all of them before the end. */
module PipelineBytes {
  import opened Options
  import opened StreamLife
  import opened Pipeline
  import opened PipelineLife
  import opened PipelineOrder
  import D = PipelineDrain
  import B = Bytes
  import Q = StableQueue
  import R = StreamRead

  // -------------------------------------------------------------------------
  // Sequences of frames

  function Payloads(frames: seq<Frame>): seq<B.byte> {
    if frames == [] then [] else Payloads(frames[..|frames| - 1]) + Payload(frames[|frames| - 1])
  }

  lemma {:induction false} PayloadsAppend(a: seq<Frame>, b: seq<Frame>)
    ensures Payloads(a + b) == Payloads(a) + Payloads(b)
  {
    if b == [] {
      assert a + b == a;
    } else {
      var n := |b| - 1;
      assert (a + b)[..|a + b| - 1] == a + b[..n];
      PayloadsAppend(a, b[..n]);
      Regroup(Payloads(a), Payloads(b[..n]), Payload(b[n]));
      hide Payload;
    }
  }

  lemma Regroup(a: seq<B.byte>, b: seq<B.byte>, c: seq<B.byte>)
    ensures (a + b) + c == a + (b + c)
  {}

  lemma PayloadsOne(f: Frame)
    ensures Payloads([f]) == Payload(f)
  {
    assert [f][..0] == [];
  }

  ghost predicate Empty(frames: seq<Frame>) {
    forall f | f in frames :: Payload(f) == []
  }

  lemma {:induction false} EmptyPayloads(frames: seq<Frame>)
    requires Empty(frames)
    ensures Payloads(frames) == []
  {
    if frames != [] { EmptyPayloads(frames[..|frames| - 1]); }
  }

  /** The peer sends no data on a stream that it has ended. */
  ghost predicate Clean(frames: seq<Frame>) {
    forall i, j | 0 <= i < j < |frames| && Ends(frames[i]) :: Payload(frames[j]) == []
  }

  ghost predicate HasEnd(frames: seq<Frame>) {
    exists f | f in frames :: Ends(f)
  }

  lemma CleanPrefix(a: seq<Frame>, b: seq<Frame>)
    requires Clean(a + b)
    ensures Clean(a)
    ensures HasEnd(a) ==> Empty(b)
  {
    var all := a + b;
    forall i, j | 0 <= i < j < |a| && Ends(a[i]) ensures Payload(a[j]) == [] {
      assert all[i] == a[i] && all[j] == a[j];
    }
    if HasEnd(a) {
      var i :| 0 <= i < |a| && Ends(a[i]);
      forall f | f in b ensures Payload(f) == [] {
        var j :| 0 <= j < |b| && b[j] == f;
        assert all[i] == a[i] && all[|a| + j] == f;
      }
    }
  }

  // -------------------------------------------------------------------------
  // The invariant

  /** Nothing has happened to the stream that loses data of the peer. */
  predicate Intact(st: Stream) {
    st.announced && !st.torn && !st.dropped
  }

  /** Nor has the order of its frames changed. */
  predicate Sound(v: View) {
    Intact(v.stream) && !v.overtaken
  }

  /** And the peer respects the end of its half. */
  ghost predicate Good(v: View, x: Id) {
    && Sound(v)
    && Clean(Mine(v.read, x))
  }

  /** The bytes returned to the application, and those that a read has left over. */
  function Got(st: Stream): seq<B.byte> {
    st.reading.returned + R.Bytes(st.reading.unread)
  }

  /** The data of a frame that the application has been given, while its handler goes on. */
  function Given(w: Worker, x: Id): seq<B.byte> {
    if w.Busy? && IsMine(w.frame, x) && (w.stage.FinishShut? || w.stage.FinishRemove?) then Payload(w.frame) else []
  }

  ghost predicate GotInv(v: View, x: Id) {
    && Got(v.stream) == Payloads(Mine(v.lane.handled, x)) + Given(v.lane.worker, x)
    && (v.stream.reading.unread.Some? ==> v.stream.reading.unread.value != [])
  }

  ghost predicate EndInv(v: View, x: Id) {
    && (Closed(v.stream) ==>
          && Got(v.stream) == Payloads(Mine(v.read, x))
          && (HasEnd(Mine(v.read, x)) || v.reader.Sweeping? || v.reader.Done?))
    && (v.stream.eof ==> Closed(v.stream) && v.stream.reading.unread.None?)
  }

  ghost predicate BytesInv(v: View, x: Id) {
    Good(v, x) ==> GotInv(v, x) && EndInv(v, x)
  }

  /** While a handler has data that it has not given to the application, the stream is not closed. */
  lemma PendingMeansOpen(v: View, x: Id)
    requires Fifo(v, x) && GotInv(v, x) && EndInv(v, x)
    requires v.lane.worker.Busy? && IsMine(v.lane.worker.frame, x) && Payload(v.lane.worker.frame) != []
    requires Given(v.lane.worker, x) == []
    ensures !Closed(v.stream)
  {
    hide Mine, Queued, Payload, Payloads;
    var f := v.lane.worker.frame;
    WireSplits(v, x, f);
    var handled, rest := Mine(v.lane.handled, x), Queued(v.lane.queue, x) + Mine(InHand(v.reader), x);
    assert |Payloads(Mine(v.read, x))| > |Payloads(handled)|;
  }

  /** The payloads of the wire, split at the frame in handling. */
  lemma WireSplits(v: View, x: Id, f: Frame)
    requires Fifo(v, x) && Current(v.lane.worker) == [f] && IsMine(f, x)
    ensures var rest := Queued(v.lane.queue, x) + Mine(InHand(v.reader), x);
            Payloads(Mine(v.read, x)) == Payloads(Mine(v.lane.handled, x)) + (Payload(f) + Payloads(rest))
  {
    hide Mine, Queued, Payload, Payloads;
    var handled, rest := Mine(v.lane.handled, x), Queued(v.lane.queue, x) + Mine(InHand(v.reader), x);
    MineOne(f, x);
    assert Mine(v.read, x) == handled + ([f] + rest);
    PayloadsAppend(handled, [f] + rest);
    PayloadsAppend([f], rest);
    PayloadsOne(f);
  }

  // -------------------------------------------------------------------------
  // Steps on a view

  /** A step that neither moves data nor closes the stream. */
  lemma BytesSame(v: View, v1: View, x: Id)
    requires BytesInv(v, x) && (Sound(v1) ==> Sound(v))
    requires v1.read == v.read && v1.lane.handled == v.lane.handled
    requires Given(v1.lane.worker, x) == Given(v.lane.worker, x)
    requires v1.stream.reading == v.stream.reading && v1.stream.eof == v.stream.eof
    requires Closed(v1.stream) == Closed(v.stream)
    requires v.reader.Sweeping? || v.reader.Done? ==> v1.reader.Sweeping? || v1.reader.Done?
    ensures BytesInv(v1, x)
  {
    hide Mine, Payloads, Given, Clean, HasEnd, Closed, Sound;
  }

  lemma BytesRead(v: View, x: Id, f: Frame, r: Reader)
    requires BytesInv(v, x) && v.reader.Reading?
    ensures BytesInv(v.(reader := r, read := v.read + [f]), x)
  {
    hide Mine, Payload, Clean, HasEnd, Intact, Given, Closed, Payloads;
    var mine := Mine(v.read, x);
    MineLast(v.read, f, x);
    if IsMine(f, x) {
      if Clean(mine + [f]) { CleanPrefix(mine, [f]); }
      PayloadsAppend(mine, [f]);
      PayloadsOne(f);
      EndGrows(mine, f);
    } else {
      assert mine + [] == mine;
    }
    assert Payloads(mine) + [] == Payloads(mine);
  }

  lemma EndGrows(frames: seq<Frame>, f: Frame)
    ensures HasEnd(frames) ==> HasEnd(frames + [f])
    ensures Empty([f]) ==> Payload(f) == []
  {
    assert f in [f];
    hide Payload, Ends;
  }

  /** A stream is born without data, and closed if its first frame is its last. */
  lemma BytesBirth(v: View, x: Id, st: Stream)
    requires Got(st) == [] && st.reading.unread.None? && !st.eof
    requires st.announced && !v.overtaken ==> Mine(v.lane.handled, x) == [] && Given(v.lane.worker, x) == []
    requires st.announced && Closed(st) ==> exists f :: Mine(v.read, x) == [f] && Ends(f) && Payload(f) == []
    ensures BytesInv(v.(stream := st), x)
  {
    hide Mine, Payload, Given, Ends;
    assert Payloads([]) == [];
    if st.announced && Closed(st) {
      var f :| Mine(v.read, x) == [f] && Ends(f) && Payload(f) == [];
      PayloadsOne(f);
      assert f in [f];
    }
  }

  lemma BytesUse(v: View, x: Id, u: Use)
    requires BytesInv(v, x) && CanUse(v.stream, u)
    requires v.stream.removing > 0 || v.stream.expiring ==> v.stream.torn
    ensures BytesInv(v.(stream := Used(v.stream, u)), x)
  {
    var st := v.stream;
    UseIsLater(st, u);
    if !u.ReadRest? { UseKeepsReading(st, u); }
    match u {
      case ReadRest(room) => BytesReadRest(v, x, room);
      case ReadEof => BytesReadEof(v, x);
      case _ => if !u.ResetShut? && !u.ExpiryShut? { BytesSame(v, v.(stream := Used(st, u)), x); }
    }
  }

  lemma BytesReadRest(v: View, x: Id, room: nat)
    requires BytesInv(v, x) && CanUse(v.stream, ReadRest(room))
    ensures BytesInv(v.(stream := Used(v.stream, ReadRest(room))), x)
  {
    var call := R.Read(room, R.Closed);
    if Good(v, x) { R.AnswerConserves(v.stream.reading, call); }
    hide Mine, Payloads, R.Answer, Given, Clean, HasEnd;
  }

  lemma BytesReadEof(v: View, x: Id)
    requires BytesInv(v, x) && CanUse(v.stream, ReadEof)
    ensures BytesInv(v.(stream := Used(v.stream, ReadEof)), x)
  {
    hide Mine, Payloads, Given, Clean, HasEnd;
  }

  // -------------------------------------------------------------------------
  // A handler goes on

  /** What a handler rests on when it works on a frame of x. */
  ghost predicate Working(v: View, x: Id, f: Frame, stage: Stage, m: Move) {
    && v.lane.worker == Busy(f, stage) && IsMine(f, x)
    && CanAdvance(f, stage, v.stream, m)
    && LifeInv(On(f, stage), v.stream)
    && (!v.overtaken ==> Fifo(v, x))
    && BytesInv(v, x)
  }

  function AfterMove(v: View, f: Frame, stage: Stage, m: Move): View {
    v.(lane := Advanced(v.lane, f, NextStage(f, stage, v.stream, m)), stream := Handled(f, stage, v.stream, m))
  }

  /** The data that the step gives to the application. */
  function Moved(f: Frame, stage: Stage, m: Move): seq<B.byte> {
    if stage.Offer? && m.Hand? then Payload(f) else []
  }

  lemma MovedIsGot(f: Frame, stage: Stage, st: Stream, m: Move)
    requires CanAdvance(f, stage, st, m) && Fits(f, stage)
    requires st.reading.unread.Some? ==> st.reading.unread.value != []
    ensures var st1 := Handled(f, stage, st, m);
            && Got(st1) == Got(st) + Moved(f, stage, m)
            && (st1.reading.unread.Some? ==> st1.reading.unread.value != [])
  {
    if stage.Offer? && m.Hand? {
      R.AnswerConserves(st.reading, m.call);
    }
    hide R.Answer;
  }

  /** No step of a handler that returns loses data: it has given the data to the application, or
      there is none, or the stream is closed or has not been answered. */
  lemma NothingSkipped(f: Frame, stage: Stage, st: Stream, m: Move)
    requires CanAdvance(f, stage, st, m) && Fits(f, stage) && TableInv(On(f, stage), st)
    requires Intact(Handled(f, stage, st, m)) && FieldInv(st)
    requires NextStage(f, stage, st, m).None? || NextStage(f, stage, st, m).value.FinishShut?
    requires Payload(f) != [] && !Closed(st)
    ensures stage.FinishRemove? || Moved(f, stage, m) == Payload(f)
  {
    match stage {
      case Lookup => case Serving => case Remove => case Shutting => case Check => case Mark => case Offer =>
      case FinishShut => case FinishRemove => case SendErr => case CloseStart => case MarkFinished =>
    }
  }

  /** A handler closes the stream right after it has dealt with a last frame, and only data that
      has been given to the application leads there. */
  lemma StageFlow(f: Frame, stage: Stage, st: Stream, m: Move)
    requires CanAdvance(f, stage, st, m) && Fits(f, stage) && Payload(f) != []
    ensures match NextStage(f, stage, st, m)
            case None => !stage.FinishShut?
            case Some(FinishShut) => !stage.FinishShut? && !stage.FinishRemove?
            case Some(FinishRemove) => stage.FinishShut?
            case Some(_) => !stage.FinishShut? && !stage.FinishRemove? && Moved(f, stage, m) == []
  {}

  lemma GoodBefore(v: View, x: Id, f: Frame, stage: Stage, m: Move)
    requires Good(AfterMove(v, f, stage, m), x)
    ensures Good(v, x)
  {
    HandledIsLater(f, stage, v.stream, m);
    hide Mine, Clean, Handled, NextStage;
  }

  lemma GivenNext(v: View, x: Id, f: Frame, stage: Stage, m: Move)
    requires Working(v, x, f, stage, m) && Good(AfterMove(v, f, stage, m), x)
    ensures var next := NextStage(f, stage, v.stream, m);
            Given(v.lane.worker, x) + Moved(f, stage, m) ==
              if next.None? then Payload(f) else Given(AfterMove(v, f, stage, m).lane.worker, x)
  {
    hide Mine, Clean, Handled, NextStage, GotInv, EndInv, Fifo, LifeInv;
    GoodBefore(v, x, f, stage, m);
    if Payload(f) != [] {
      LifeParts(f, stage, v.stream);
      StageFlow(f, stage, v.stream, m);
      var next := NextStage(f, stage, v.stream, m);
      if Given(v.lane.worker, x) == [] && (next.None? || next.value.FinishShut?) {
        PendingMeansOpen(v, x);
        NothingSkipped(f, stage, v.stream, m);
      }
    }
  }

  lemma LifeParts(f: Frame, stage: Stage, st: Stream)
    requires LifeInv(On(f, stage), st)
    ensures Fits(f, stage) && TableInv(On(f, stage), st) && FieldInv(st)
  {
    hide Fits, TableInv, FieldInv, ChannelInv;
  }

  lemma AdvanceGot(v: View, x: Id, f: Frame, stage: Stage, m: Move)
    requires Working(v, x, f, stage, m) && Good(AfterMove(v, f, stage, m), x)
    ensures GotInv(AfterMove(v, f, stage, m), x)
  {
    hide Mine, Clean, Handled, NextStage, EndInv, Fifo, LifeInv, Payloads, Payload, CanAdvance, Moved, Got;
    var handled := Mine(v.lane.handled, x);
    GoodBefore(v, x, f, stage, m);
    LifeParts(f, stage, v.stream);
    MovedIsGot(f, stage, v.stream, m);
    GivenNext(v, x, f, stage, m);
    MineLast(v.lane.handled, f, x);
    PayloadsAppend(handled, [f]);
    PayloadsOne(f);
    Regroup(Payloads(handled), Given(v.lane.worker, x), Moved(f, stage, m));
  }

  /** The frames of x behind the one in handling have no data if that one is the last. */
  lemma LastIsComplete(v: View, x: Id, f: Frame)
    requires Fifo(v, x) && Clean(Mine(v.read, x)) && Current(v.lane.worker) == [f] && IsMine(f, x) && Ends(f)
    ensures Payloads(Mine(v.read, x)) == Payloads(Mine(v.lane.handled, x)) + Payload(f)
    ensures HasEnd(Mine(v.read, x))
  {
    hide Mine, Clean, Payload, Queued, Payloads, Ends;
    var handled, rest := Mine(v.lane.handled, x), Queued(v.lane.queue, x) + Mine(InHand(v.reader), x);
    MineOne(f, x);
    assert Mine(v.read, x) == (handled + [f]) + rest;
    assert f in handled + [f] && f in Mine(v.read, x);
    CleanPrefix(handled + [f], rest);
    EmptyPayloads(rest);
    PayloadsAppend(handled + [f], rest);
    PayloadsAppend(handled, [f]);
    PayloadsOne(f);
  }

  lemma AdvanceEnd(v: View, x: Id, f: Frame, stage: Stage, m: Move)
    requires Working(v, x, f, stage, m) && Good(AfterMove(v, f, stage, m), x)
    ensures EndInv(AfterMove(v, f, stage, m), x)
  {
    hide Mine, Clean, Handled, NextStage, Fifo, LifeInv, Payloads, HasEnd;
    HandledIsLater(f, stage, v.stream, m);
    HandledKeeps(f, stage, v.stream, m);
    GoodBefore(v, x, f, stage, m);
    LifeParts(f, stage, v.stream);
    MovedIsGot(f, stage, v.stream, m);
    if Closed(v.stream) {
      if stage.Offer? && m.Hand? && Payload(f) != [] { PendingMeansOpen(v, x); }
    } else if stage.FinishShut? {
      LastIsComplete(v, x, f);
    }
  }

  lemma BytesAdvance(v: View, x: Id, f: Frame, stage: Stage, m: Move)
    requires Working(v, x, f, stage, m)
    ensures BytesInv(AfterMove(v, f, stage, m), x)
  {
    hide Working, GotInv, EndInv;
    if Good(AfterMove(v, f, stage, m), x) {
      AdvanceGot(v, x, f, stage, m);
      AdvanceEnd(v, x, f, stage, m);
    }
  }

  /** A handler of the same lane goes on with a frame of another stream. */
  lemma BytesAdvanceOther(v: View, x: Id, next: Option<Stage>)
    requires BytesInv(v, x) && v.lane.worker.Busy? && !IsMine(v.lane.worker.frame, x)
    ensures BytesInv(v.(lane := Advanced(v.lane, v.lane.worker.frame, next)), x)
  {
    hide Mine, Payloads, Clean, HasEnd, Closed, Intact;
    MineLast(v.lane.handled, v.lane.worker.frame, x);
    AppendNothing(Mine(v.lane.handled, x));
  }

  /** Serve closes the stream when its handler has exited: then all its data has been given. */
  lemma BytesSwept(v: View, x: Id)
    requires BytesInv(v, x) && v.reader.Sweeping? && v.lane.worker.Exited? && v.lane.queue == []
    requires !v.overtaken ==> Fifo(v, x)
    ensures BytesInv(v.(stream := Shut(v.stream)), x)
  {
    if Good(v, x) {
      MineNone(x);
      AppendNothing(Mine(v.lane.handled, x));
      assert Mine(v.read, x) == Mine(v.lane.handled, x) by { hide Mine; }
    }
    hide Mine, Payloads, Clean, HasEnd;
  }

  // -------------------------------------------------------------------------
  // Steps of the connection

  ghost predicate BytesReady(s: State, x: Id) {
    LivesInv(s, x) && OrderReady(s, x) && D.Phases(s) && BytesInv(ViewOf(s, x), x)
  }

  lemma BytesParts(s: State, x: Id)
    requires BytesReady(s, x)
    ensures BytesInv(ViewOf(s, x), x)
    ensures LifeInv(TaskOf(s, x), At(s, x))
    ensures x !in s.overtaken ==> Fifo(ViewOf(s, x), x)
    ensures forall w: Index :: LanePlaced(s, w)
  {
    hide LanePlaced, BytesInv, Fifo, LifeInv, D.Phases, Q.Ordered;
  }

  lemma BytesStepRead(s: State, f: Frame, x: Id)
    requires BytesReady(s, x) && Enabled(s, Read(f))
    ensures BytesInv(ViewOf(Apply(s, Read(f)), x), x)
  {
    hide BytesReady, BytesInv, Arrives, PriorityOf, LaneOf, Received;
    BytesParts(s, x);
    var v, r := ViewOf(s, x), Classify(s, f);
    if InHand(r) == [f] {
      BytesRead(v, x, f, r);
    } else {
      assert v.read + [] == v.read;
      BytesSame(v, v.(reader := r), x);
    }
  }

  lemma BytesStepAdd(s: State, x: Id)
    requires BytesReady(s, x) && Enabled(s, Add)
    ensures BytesInv(ViewOf(Apply(s, Add), x), x)
  {
    hide BytesReady, BytesInv, Mine, LaneOf, Accepted, Fifo, LifeInv;
    BytesParts(s, x);
    var v, r, f := ViewOf(s, x), Apply(s, Add).reader, s.reader.syn;
    if IsMine(f, x) {
      var st := Accepted(f, Mine(s.read, x) == [f]);
      AcceptedIsNew(f, Mine(s.read, x) == [f]);
      MineOne(f, x);
      if st.announced && !v.overtaken { NothingGiven(v, x); }
      BytesBirth(v.(reader := r), x, st);
    } else {
      BytesSame(v, v.(reader := r), x);
    }
  }

  lemma AcceptedIsNew(f: SynFrame, announced: bool)
    ensures var st := Accepted(f, announced);
            && Got(st) == [] && st.reading.unread.None? && !st.eof
            && (Closed(st) ==> Ends(f)) && Payload(f) == [] && st.announced == announced
  {}

  /** Before a stream is added its handler has seen nothing of it. */
  lemma NothingGiven(v: View, x: Id)
    requires Fifo(v, x) && |Mine(v.read, x)| <= |Mine(InHand(v.reader), x)|
    ensures Mine(v.lane.handled, x) == [] && Given(v.lane.worker, x) == []
  {
    hide Mine, Queued, Payload;
    assert |Mine(v.lane.handled, x)| == 0 && |Mine(Current(v.lane.worker), x)| == 0;
    if v.lane.worker.Busy? { MineOne(v.lane.worker.frame, x); }
  }

  lemma BytesStepCreate(s: State, fin: bool, x: Id)
    requires BytesReady(s, x) && Enabled(s, Create(fin))
    ensures BytesInv(ViewOf(Apply(s, Create(fin)), x), x)
  {
    hide BytesReady, BytesInv, Mine, LaneOf, Fifo, LifeInv;
    BytesParts(s, x);
    if s.next == x {
      var v := ViewOf(s, x);
      var st := Created(fin, Mine(s.read, x) == []);
      if st.announced && !v.overtaken { NothingGiven(v, x); }
      BytesBirth(v, x, st);
    }
  }

  lemma BytesStepAdvance(s: State, w: Index, m: Move, x: Id)
    requires BytesReady(s, x) && Enabled(s, Advance(w, m))
    ensures BytesInv(ViewOf(Apply(s, Advance(w, m)), x), x)
  {
    hide BytesReady, BytesInv, Mine, LifeInv, LanePlaced, Fifo;
    hide Handled, NextStage, CanAdvance, Advanced;
    BytesParts(s, x);
    var v := ViewOf(s, x);
    var Busy(f, stage) := s.lanes[w].worker;
    assert LanePlaced(s, w);
    WorkerPlaced(s, w);
    if IsMine(f, x) {
      BytesAdvance(v, x, f, stage, m);
    } else if w == LaneOf(x) {
      BytesAdvanceOther(v, x, NextStage(f, stage, At(s, IdOf(f)), m));
    }
  }

  lemma BytesStepUse(s: State, y: Id, u: Use, x: Id)
    requires BytesReady(s, x) && Enabled(s, Use(y, u))
    ensures BytesInv(ViewOf(Apply(s, Use(y, u)), x), x)
  {
    hide BytesReady, BytesInv, LaneOf, Used, CanUse, Fifo;
    BytesParts(s, x);
    if x == y {
      assert At(s, x).removing > 0 || At(s, x).expiring ==> At(s, x).torn;
      BytesUse(ViewOf(s, x), x, u);
    }
  }

  lemma BytesStepSweep(s: State, y: Id, x: Id)
    requires BytesReady(s, x) && Enabled(s, SweepOne(y))
    ensures BytesInv(ViewOf(Apply(s, SweepOne(y)), x), x)
  {
    hide BytesInv, LaneOf, Shut, Fifo, LifeInv, LivesInv, OrderReady;
    BytesParts(s, x);
    assert D.PhaseInv(s, LaneOf(x));
    var v := ViewOf(s, x);
    if x == y { BytesSwept(v, x); }
    var v1 := ViewOf(Apply(s, SweepOne(y)), x);
    BytesSame(if x == y then v.(stream := Shut(v.stream)) else v, v1, x);
  }

  /** The other steps neither move data of x nor close it. */
  lemma BytesStepRest(s: State, a: Action, x: Id)
    requires BytesReady(s, x) && Enabled(s, a)
    requires !a.Read? && !a.Add? && !a.Create? && !a.Advance? && !a.Use? && !a.SweepOne?
    ensures BytesInv(ViewOf(Apply(s, a), x), x)
  {
    hide BytesReady, BytesInv, LaneOf, Fifo, LifeInv, Listed, Q.Insert, Overtakes;
    BytesParts(s, x);
    BytesSame(ViewOf(s, x), ViewOf(Apply(s, a), x), x);
  }

  lemma BytesStep(s: State, a: Action, x: Id)
    requires BytesReady(s, x) && Enabled(s, a) && Fresh(s, a)
    ensures BytesReady(Apply(s, a), x)
  {
    hide LivesInv, OrderReady, D.Phases, BytesInv, Enabled, Apply, Fresh;
    LivesStep(s, a, x);
    OrderReadyStep(s, a, x);
    D.PhasesStep(s, a);
    match a {
      case Read(f) => BytesStepRead(s, f, x);
      case Add => BytesStepAdd(s, x);
      case Create(fin) => BytesStepCreate(s, fin, x);
      case Advance(w, m) => BytesStepAdvance(s, w, m, x);
      case Use(y, u) => BytesStepUse(s, y, u, x);
      case SweepOne(y) => BytesStepSweep(s, y, x);
      case _ => BytesStepRest(s, a, x);
    }
  }

  lemma {:induction false} BytesRun(server: bool, run: seq<Action>, x: Id)
    requires Run(server, run).Some? && FreshRun(server, run)
    ensures BytesReady(Run(server, run).value, x)
  {
    if run != [] {
      BytesRun(server, run[..|run| - 1], x);
      hide BytesReady, Enabled, Apply, Fresh;
      BytesStep(Run(server, run[..|run| - 1]).value, run[|run| - 1], x);
    } else {
      LivesRun(server, run, x);
      OrderRun(server, run, x);
      D.PhaseRun(server, run);
      hide LivesInv, OrderReady, D.Phases;
    }
  }

  // -------------------------------------------------------------------------
  // What the application reads

  /** In every run, for a stream that was added before any other frame of it was read, answered
      before its data met a handler, neither reset nor expired, of which no frame was queued in
      front of another, and with no data after the peer's FIN: the bytes returned and
      left over are a prefix of the payloads of its DATA frames in the order of the wire, and a
      reader that has met the end has been returned all of them, in this and in later states. */
  lemma BytesInOrder(server: bool, run: seq<Action>, x: Id)
    requires Run(server, run).Some? && FreshRun(server, run)
    requires Sound(ViewOf(Run(server, run).value, x)) && Clean(Mine(Run(server, run).value.read, x))
    ensures var s := Run(server, run).value;
            var st, wire := At(s, x), Payloads(Mine(s.read, x));
            && st.reading.returned + R.Bytes(st.reading.unread) <= wire
            && (Closed(st) ==> st.reading.returned + R.Bytes(st.reading.unread) == wire)
            && (st.eof ==> st.reading.returned == wire)
  {
    BytesRun(server, run, x);
    var s := Run(server, run).value;
    hide BytesReady, Run, Mine, Clean, Payloads, Fifo, LanePlaced, LifeInv;
    BytesParts(s, x);
    GotIsPrefix(ViewOf(s, x), x);
  }

  lemma GotIsPrefix(v: View, x: Id)
    requires Fifo(v, x) && GotInv(v, x)
    ensures Got(v.stream) <= Payloads(Mine(v.read, x))
  {
    hide Fifo, Mine, Payloads, Given;
    WireIsLonger(v, x);
  }

  lemma WireIsLonger(v: View, x: Id)
    requires Fifo(v, x)
    ensures Payloads(Mine(v.lane.handled, x)) + Given(v.lane.worker, x) <= Payloads(Mine(v.read, x))
  {
    hide Mine, Queued, Payload, Payloads;
    var handled := Mine(v.lane.handled, x);
    var rest := Queued(v.lane.queue, x) + Mine(InHand(v.reader), x);
    var current := Mine(Current(v.lane.worker), x);
    assert Mine(v.read, x) == handled + (current + rest);
    PayloadsAppend(handled, current + rest);
    PayloadsAppend(current, rest);
    if v.lane.worker.Busy? {
      MineOne(v.lane.worker.frame, x);
      PayloadsOne(v.lane.worker.frame);
    }
  }

  // -------------------------------------------------------------------------
  // What the condition on the stream means

  /** The step resets or expires stream x, drops data that it was sent before it was answered, or
      queues a frame of it in front of a different one. */
  predicate Disturbs(s: State, a: Action, x: Id) {
    match a
    case Expire(_) => At(s, x).listed
    case Use(y, u) => y == x && u.ResetRemove?
    case Advance(w, _) =>
      var worker := s.lanes[w].worker;
      worker.Busy? && IsMine(worker.frame, x)
      && (worker.stage.Remove? || (worker.stage.Check? && !At(s, x).replied && Payload(worker.frame) != []))
    case Push =>
      s.reader.Pushing? && IsMine(s.reader.frame, x)
      && Overtakes(s.lanes[s.reader.lane].queue, s.reader.frame, s.reader.priority)
    case _ => false
  }

  /** The condition is lost by exactly those steps. */
  lemma SoundExactly(s: State, a: Action, x: Id)
    requires Enabled(s, a) && Fresh(s, a) && At(s, x).registered
    ensures Sound(ViewOf(Apply(s, a), x)) <==> Sound(ViewOf(s, x)) && !Disturbs(s, a, x)
  {
    IntactExactly(s, a, x);
    OvertakenExactly(s, a, x);
    hide Intact, Disturbs, At, Enabled, Apply;
  }

  lemma OvertakenExactly(s: State, a: Action, x: Id)
    requires Enabled(s, a)
    ensures x in Apply(s, a).overtaken <==> x in s.overtaken || (a.Push? && Disturbs(s, a, x))
  {
    if a.Push? {
      OvertakersAreOnStreams(s.lanes[s.reader.lane].queue, s.reader.frame, s.reader.priority);
      hide Overtakes, Pushed;
    } else {
      hide Disturbs, Enabled, Apply;
      SameOvertaken(s, a);
    }
  }

  lemma IntactExactly(s: State, a: Action, x: Id)
    requires Enabled(s, a) && Fresh(s, a) && At(s, x).registered
    ensures Intact(At(Apply(s, a), x)) <==> Intact(At(s, x)) && (a.Push? || !Disturbs(s, a, x))
  {
    hide Intact;
    match a {
      case Use(y, u) => IntactUse(At(s, x), u);
      case Advance(w, m) => IntactAdvance(s, w, m, x);
      case Add => IntactBirth(s, a, x);
      case Create(_) => IntactBirth(s, a, x);
      case SweepOne(_) => IntactTable(s, a, x);
      case EndSweep => IntactTable(s, a, x);
      case Expire(_) => IntactTable(s, a, x);
      case _ => SameStreams(s, a, x);
    }
  }

  lemma IntactUse(st: Stream, u: Use)
    ensures Intact(Used(st, u)) <==> Intact(st) && !u.ResetRemove?
  {
    match u {
      case Open => case Answer => case ReadRest(_) => case ReadEof => case SetPriority(_) =>
      case CloseRemove => case WriteFin => case ResetRemove => case ResetShut => case ResetFinish =>
      case ExpiryShut(_) => case ExpiryFinish(_) => case ExpiryWritten(_) =>
    }
  }

  lemma IntactAdvance(s: State, w: Index, m: Move, x: Id)
    requires Enabled(s, Advance(w, m))
    ensures Intact(At(Apply(s, Advance(w, m)), x)) <==> Intact(At(s, x)) && !Disturbs(s, Advance(w, m), x)
  {
    var Busy(f, stage) := s.lanes[w].worker;
    IntactHandled(f, stage, At(s, x), m);
    hide Handled, NextStage, CanAdvance, Intact, Payload;
  }

  lemma IntactHandled(f: Frame, stage: Stage, st: Stream, m: Move)
    ensures Intact(Handled(f, stage, st, m)) <==>
              Intact(st) && !stage.Remove? && !(stage.Check? && !st.replied && Payload(f) != [])
  {
    hide Payload, R.Answer, Closed;
  }

  lemma IntactBirth(s: State, a: Action, x: Id)
    requires At(s, x).registered && Enabled(s, a) && Fresh(s, a) && (a.Add? || a.Create?)
    ensures At(Apply(s, a), x) == At(s, x)
  {
    hide Mine, Accepted, Created;
  }

  lemma IntactTable(s: State, a: Action, x: Id)
    requires At(s, x).registered && Enabled(s, a) && (a.SweepOne? || a.EndSweep? || a.Expire?)
    ensures Intact(At(Apply(s, a), x)) <==> Intact(At(s, x)) && !Disturbs(s, a, x)
  {
    hide LaneOf;
  }
}
