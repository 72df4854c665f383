/** Which bytes of a stream can be lost: none in the middle unless data met a handler before the
    stream was answered, and at the end only what a reset or an expiry cuts off. */
module PipelineLoss {
  import opened Options
  import opened StreamLife
  import opened Pipeline
  import opened PipelineLife
  import opened PipelineOrder
  import opened PipelineBytes
  import Q = StableQueue
  import R = StreamRead

  // -------------------------------------------------------------------------
  // The invariants

  /** What the application has got never exceeds what the handlers have dealt with, and falls short
      of it once data was dropped. */
  ghost predicate LossInv(v: View, x: Id) {
    && |Got(v.stream)| + (if v.stream.dropped then 1 else 0)
         <= |Payloads(Mine(v.lane.handled, x))| + |Given(v.lane.worker, x)|
    && (v.stream.reading.unread.Some? ==> v.stream.reading.unread.value != [])
  }

  /** A handler has data of x in hand that the application may still get. */
  predicate Undelivered(w: Worker, x: Id) {
    w.Busy? && IsMine(w.frame, x) && Payload(w.frame) != [] && (w.stage.Check? || w.stage.Offer?)
  }

  /** No byte was lost in the middle. */
  ghost predicate Unbroken(v: View, x: Id) {
    v.stream.announced && !v.overtaken && !v.stream.dropped && Clean(Mine(v.read, x))
  }

  /** What the application has got is the front of what the handlers have dealt with, and what it
      may still get is what comes next. */
  ghost predicate InFront(v: View, x: Id) {
    && Got(v.stream) <= Payloads(Mine(v.lane.handled, x)) + Given(v.lane.worker, x)
    && (Undelivered(v.lane.worker, x) ==> Got(v.stream) == Payloads(Mine(v.lane.handled, x)))
  }

  /** A stream that was reset or expired has left the table, so that only the frame that a handler
      already has in hand can still reach the application. */
  ghost predicate TornInv(v: View, x: Id) {
    v.stream.torn ==> !v.stream.listed && (Unbroken(v, x) ==> InFront(v, x))
  }

  ghost predicate ExtraInv(v: View, x: Id) {
    LossInv(v, x) && TornInv(v, x)
  }

  // -------------------------------------------------------------------------
  // Steps on a view

  /** Nothing happens to the stream that loses or moves data, and nothing to its frames but that
      another one may have been read. */
  ghost predicate Untouched(st: Stream, st1: Stream) {
    && st1.reading == st.reading && st1.dropped == st.dropped && st1.torn == st.torn
    && st1.announced == st.announced && (st1.listed ==> st.listed)
  }

  lemma ExtraSame(v: View, v1: View, x: Id)
    requires ExtraInv(v, x) && Untouched(v.stream, v1.stream) && (v.overtaken ==> v1.overtaken)
    requires v1.lane.handled == v.lane.handled && Given(v1.lane.worker, x) == Given(v.lane.worker, x)
    requires Undelivered(v1.lane.worker, x) ==> Undelivered(v.lane.worker, x)
    requires Clean(Mine(v1.read, x)) ==> Clean(Mine(v.read, x))
    ensures ExtraInv(v1, x)
  {
    hide Mine, Payloads, Given, Clean, Undelivered;
  }

  lemma ExtraBirth(v: View, x: Id, st: Stream)
    requires Got(st) == [] && st.reading.unread.None? && !st.dropped && !st.torn
    ensures ExtraInv(v.(stream := st), x)
  {
    hide Mine, Payloads, Given, Clean;
  }

  lemma CleanBefore(read: seq<Frame>, f: Frame, x: Id)
    ensures Clean(Mine(read + [f], x)) ==> Clean(Mine(read, x))
  {
    hide Mine, Clean;
    MineLast(read, f, x);
    if IsMine(f, x) {
      if Clean(Mine(read, x) + [f]) { CleanPrefix(Mine(read, x), [f]); }
    } else {
      assert Mine(read, x) + [] == Mine(read, x);
    }
  }

  /** The application or the monitor gives the stream up. */
  lemma ExtraTorn(v: View, x: Id, st: Stream)
    requires ExtraInv(v, x) && BytesInv(v, x)
    requires st.reading == v.stream.reading && st.dropped == v.stream.dropped && st.announced == v.stream.announced
    requires !st.listed
    ensures ExtraInv(v.(stream := st), x)
  {
    hide Mine, Payloads, Payload, Clean;
  }

  lemma ExtraReadRest(v: View, x: Id, room: nat)
    requires ExtraInv(v, x) && CanUse(v.stream, ReadRest(room))
    ensures ExtraInv(v.(stream := Used(v.stream, ReadRest(room))), x)
  {
    R.AnswerConserves(v.stream.reading, R.Read(room, R.Closed));
    hide Mine, Payloads, R.Answer, Given, Clean, Undelivered;
  }

  lemma ExtraUse(v: View, x: Id, u: Use)
    requires ExtraInv(v, x) && BytesInv(v, x) && CanUse(v.stream, u)
    ensures ExtraInv(v.(stream := Used(v.stream, u)), x)
  {
    var v1 := v.(stream := Used(v.stream, u));
    UseIsLater(v.stream, u);
    match u {
      case ReadRest(room) => ExtraReadRest(v, x, room);
      case ResetRemove => ExtraTorn(v, x, Used(v.stream, u));
      case _ =>
        UseKeepsReading(v.stream, u);
        UseKeepsMarks(v.stream, u);
        hide Used, LossInv, TornInv;
        ExtraSame(v, v1, x);
    }
  }

  lemma UseKeepsMarks(st: Stream, u: Use)
    requires !u.ResetRemove?
    ensures (Used(st, u).torn ==> st.torn) && (Used(st, u).dropped ==> st.dropped)
  {
    match u {
      case Open => case Answer => case ReadRest(_) => case ReadEof => case SetPriority(_) =>
      case CloseRemove => case WriteFin => case ResetRemove => case ResetShut => case ResetFinish =>
      case ExpiryShut(_) => case ExpiryFinish(_) => case ExpiryWritten(_) =>
    }
  }

  lemma ExtraAdvanceOther(v: View, x: Id, next: Option<Stage>)
    requires ExtraInv(v, x) && v.lane.worker.Busy? && !IsMine(v.lane.worker.frame, x)
    ensures ExtraInv(v.(lane := Advanced(v.lane, v.lane.worker.frame, next)), x)
  {
    hide Mine, Payloads, Clean;
    MineLast(v.lane.handled, v.lane.worker.frame, x);
    AppendNothing(Mine(v.lane.handled, x));
  }

  // -------------------------------------------------------------------------
  // A handler goes on

  /** How much of the frame in handling the step accounts for: what it gives to the application,
      or all of it if it drops it. */
  lemma StepAccounts(f: Frame, stage: Stage, st: Stream, m: Move)
    requires CanAdvance(f, stage, st, m) && Fits(f, stage)
    ensures var dropped := Handled(f, stage, st, m).dropped;
            (dropped && !st.dropped ==>
               Payload(f) != [] && Moved(f, stage, m) == [] && NextStage(f, stage, st, m).None? && stage.Check?)
  {
    match stage {
      case Lookup => case Serving => case Remove => case Shutting => case Check => case Mark => case Offer =>
      case FinishShut => case FinishRemove => case SendErr => case CloseStart => case MarkFinished =>
    }
  }

  lemma LossAdvance(v: View, x: Id, f: Frame, stage: Stage, m: Move)
    requires LossInv(v, x) && v.lane.worker == Busy(f, stage) && IsMine(f, x)
    requires CanAdvance(f, stage, v.stream, m) && Fits(f, stage)
    ensures LossInv(AfterMove(v, f, stage, m), x)
  {
    hide Mine, Handled, NextStage, CanAdvance, Payloads, Payload, Fits, Got;
    var handled := Mine(v.lane.handled, x);
    MovedIsGot(f, stage, v.stream, m);
    StepAccounts(f, stage, v.stream, m);
    if Payload(f) != [] { StageFlow(f, stage, v.stream, m); }
    MineLast(v.lane.handled, f, x);
    PayloadsAppend(handled, [f]);
    PayloadsOne(f);
  }

  lemma TornAdvance(v: View, x: Id, f: Frame, stage: Stage, m: Move)
    requires TornInv(v, x) && BytesInv(v, x) && v.lane.worker == Busy(f, stage) && IsMine(f, x)
    requires CanAdvance(f, stage, v.stream, m) && Fits(f, stage)
    requires v.stream.reading.unread.Some? ==> v.stream.reading.unread.value != []
    ensures TornInv(AfterMove(v, f, stage, m), x)
  {
    hide Mine, Handled, NextStage, CanAdvance, Clean, BytesInv, InFront;
    var v1 := AfterMove(v, f, stage, m);
    TornUnlists(f, stage, v.stream, m);
    HandledIsLater(f, stage, v.stream, m);
    if v1.stream.torn && Unbroken(v1, x) {
      WasInFront(v, x);
      if Payload(f) != [] { TornGives(v, x, f, stage, m); } else { EmptyGives(v, x, f, stage, m); }
    }
  }

  lemma WasInFront(v: View, x: Id)
    requires TornInv(v, x) && BytesInv(v, x) && Unbroken(v, x)
    ensures InFront(v, x)
  {
    hide Mine, Payloads, Payload, Clean;
  }

  lemma TornGives(v: View, x: Id, f: Frame, stage: Stage, m: Move)
    requires InFront(v, x) && v.lane.worker == Busy(f, stage) && IsMine(f, x) && Payload(f) != []
    requires CanAdvance(f, stage, v.stream, m) && Fits(f, stage)
    requires !v.stream.listed && !Handled(f, stage, v.stream, m).dropped
    requires v.stream.reading.unread.Some? ==> v.stream.reading.unread.value != []
    ensures InFront(AfterMove(v, f, stage, m), x)
  {
    hide Mine, Handled, NextStage, CanAdvance, Payloads, Payload, Fits, Got;
    var handled := Mine(v.lane.handled, x);
    MovedIsGot(f, stage, v.stream, m);
    TornFlow(f, stage, v.stream, m);
    MineLast(v.lane.handled, f, x);
    PayloadsAppend(handled, [f]);
    PayloadsOne(f);
  }

  /** Where data of a stream that is not in the table can go. */
  lemma TornFlow(f: Frame, stage: Stage, st: Stream, m: Move)
    requires CanAdvance(f, stage, st, m) && Fits(f, stage) && Payload(f) != []
    requires !st.listed && !Handled(f, stage, st, m).dropped
    ensures match NextStage(f, stage, st, m)
            case None => !stage.Check? && !stage.FinishShut?
            case Some(Offer) => stage.Check?
            case Some(FinishShut) => stage.Offer?
            case Some(FinishRemove) => stage.FinishShut?
            case Some(_) => false
  {
    match stage {
      case Lookup => case Serving => case Remove => case Shutting => case Check => case Mark => case Offer =>
      case FinishShut => case FinishRemove => case SendErr => case CloseStart => case MarkFinished =>
    }
  }

  lemma EmptyGives(v: View, x: Id, f: Frame, stage: Stage, m: Move)
    requires InFront(v, x) && v.lane.worker == Busy(f, stage) && IsMine(f, x) && Payload(f) == []
    requires CanAdvance(f, stage, v.stream, m) && Fits(f, stage)
    requires v.stream.reading.unread.Some? ==> v.stream.reading.unread.value != []
    ensures InFront(AfterMove(v, f, stage, m), x)
  {
    hide Mine, Handled, NextStage, CanAdvance, Payloads, Payload, Fits, Got;
    var handled := Mine(v.lane.handled, x);
    MovedIsGot(f, stage, v.stream, m);
    MineLast(v.lane.handled, f, x);
    PayloadsAppend(handled, [f]);
    PayloadsOne(f);
  }

  lemma TornUnlists(f: Frame, stage: Stage, st: Stream, m: Move)
    ensures var st1 := Handled(f, stage, st, m);
            st1.torn ==> if st.torn then st1.listed ==> st.listed else stage.Remove? && !st1.listed
  {
    hide Payload, R.Answer, Closed;
  }

  // -------------------------------------------------------------------------
  // Steps of the connection

  ghost predicate LossReady(s: State, x: Id) {
    BytesReady(s, x) && ExtraInv(ViewOf(s, x), x)
  }

  lemma LossStepRead(s: State, f: Frame, x: Id)
    requires LossReady(s, x) && Enabled(s, Read(f))
    ensures ExtraInv(ViewOf(Apply(s, Read(f)), x), x)
  {
    hide BytesReady, ExtraInv, Arrives, PriorityOf, LaneOf, Received, Mine;
    var v, r := ViewOf(s, x), Classify(s, f);
    CleanBefore(s.read, f, x);
    assert s.read + [] == s.read;
    ExtraSame(v, v.(reader := r, read := s.read + InHand(r)), x);
  }

  lemma LossStepBirth(s: State, a: Action, x: Id)
    requires LossReady(s, x) && Enabled(s, a) && (a.Add? || a.Create?)
    ensures ExtraInv(ViewOf(Apply(s, a), x), x)
  {
    hide BytesReady, ExtraInv, Mine, LaneOf;
    var v, v1 := ViewOf(s, x), ViewOf(Apply(s, a), x);
    if (if a.Add? then s.reader.syn.id else s.next) == x {
      ExtraBirth(v.(reader := v1.reader), x, v1.stream);
    } else {
      ExtraSame(v, v1, x);
    }
  }

  lemma LossStepUse(s: State, y: Id, u: Use, x: Id)
    requires LossReady(s, x) && Enabled(s, Use(y, u))
    ensures ExtraInv(ViewOf(Apply(s, Use(y, u)), x), x)
  {
    hide BytesReady, ExtraInv, BytesInv, LaneOf, Used, CanUse;
    if x == y {
      assert BytesInv(ViewOf(s, x), x) by { hide *; BytesParts(s, x); }
      ExtraUse(ViewOf(s, x), x, u);
    }
  }

  lemma LossStepAdvance(s: State, w: Index, m: Move, x: Id)
    requires LossReady(s, x) && Enabled(s, Advance(w, m))
    ensures ExtraInv(ViewOf(Apply(s, Advance(w, m)), x), x)
  {
    hide BytesReady, BytesInv, Mine, LifeInv, LanePlaced, Fifo, LossInv, TornInv, Fits;
    hide Handled, NextStage, CanAdvance, Advanced;
    BytesParts(s, x);
    var v := ViewOf(s, x);
    var Busy(f, stage) := s.lanes[w].worker;
    assert LanePlaced(s, w);
    WorkerPlaced(s, w);
    if IsMine(f, x) {
      LifeParts(f, stage, At(s, x));
      LossUnread(v, x);
      LossAdvance(v, x, f, stage, m);
      TornAdvance(v, x, f, stage, m);
    } else if w == LaneOf(x) {
      ExtraAdvanceOther(v, x, NextStage(f, stage, At(s, IdOf(f)), m));
    }
  }

  lemma LossUnread(v: View, x: Id)
    requires LossInv(v, x)
    ensures v.stream.reading.unread.Some? ==> v.stream.reading.unread.value != []
  {}

  lemma LossStepExpire(s: State, order: seq<Id>, x: Id)
    requires LossReady(s, x) && Enabled(s, Expire(order))
    ensures ExtraInv(ViewOf(Apply(s, Expire(order)), x), x)
  {
    hide BytesReady, ExtraInv, BytesInv, LaneOf;
    if At(s, x).listed {
      assert BytesInv(ViewOf(s, x), x) by { hide *; BytesParts(s, x); }
      ExtraTorn(ViewOf(s, x), x, Expired(At(s, x)));
    }
  }

  /** The other steps neither move data of x nor give x up. */
  lemma LossStepRest(s: State, a: Action, x: Id)
    requires LossReady(s, x) && Enabled(s, a)
    requires !a.Read? && !a.Add? && !a.Create? && !a.Advance? && !a.Use? && !a.Expire?
    ensures ExtraInv(ViewOf(Apply(s, a), x), x)
  {
    hide BytesReady, ExtraInv, LaneOf, Listed, Q.Insert, Overtakes, Mine, Arrives;
    ExtraSame(ViewOf(s, x), ViewOf(Apply(s, a), x), x);
  }

  lemma LossStep(s: State, a: Action, x: Id)
    requires LossReady(s, x) && Enabled(s, a) && Fresh(s, a)
    ensures LossReady(Apply(s, a), x)
  {
    hide BytesReady, ExtraInv, Enabled, Apply, Fresh;
    BytesStep(s, a, x);
    match a {
      case Read(f) => LossStepRead(s, f, x);
      case Add => LossStepBirth(s, a, x);
      case Create(_) => LossStepBirth(s, a, x);
      case Advance(w, m) => LossStepAdvance(s, w, m, x);
      case Use(y, u) => LossStepUse(s, y, u, x);
      case Expire(order) => LossStepExpire(s, order, x);
      case _ => LossStepRest(s, a, x);
    }
  }

  lemma {:induction false} LossRun(server: bool, run: seq<Action>, x: Id)
    requires Run(server, run).Some? && FreshRun(server, run)
    ensures LossReady(Run(server, run).value, x)
  {
    if run != [] {
      LossRun(server, run[..|run| - 1], x);
      hide LossReady, Enabled, Apply, Fresh;
      LossStep(Run(server, run[..|run| - 1]).value, run[|run| - 1], x);
    } else {
      BytesRun(server, run, x);
      hide BytesReady;
    }
  }

  // -------------------------------------------------------------------------
  // What this promises

  /** No frame of x was read before it was added, or queued in front of a different one of x. */
  predicate Sorted(s: State, x: Id) {
    At(s, x).announced && x !in s.overtaken
  }

  /** In every run, for a stream whose frames stay in order and whose peer sends no data behind its
      FIN, also one that was reset or expired: unless data met a handler before the stream was
      answered, the bytes got are a prefix of the wire. */
  lemma BytesStayInFront(server: bool, run: seq<Action>, x: Id)
    requires Run(server, run).Some? && FreshRun(server, run)
    requires var s := Run(server, run).value;
             Sorted(s, x) && !At(s, x).dropped && Clean(Mine(s.read, x))
    ensures var s := Run(server, run).value;
            var st := At(s, x);
            st.reading.returned + R.Bytes(st.reading.unread) <= Payloads(Mine(s.read, x))
  {
    LossRun(server, run, x);
    var v := ViewOf(Run(server, run).value, x);
    hide BytesReady, Run, Mine, Clean, Payloads, LanePlaced, LifeInv, Fifo, BytesInv, InFront;
    BytesParts(Run(server, run).value, x);
    WasInFront(v, x);
    WireIsLonger(v, x);
    assert InFront(v, x);
    FrontIsPrefix(v, x);
  }

  lemma FrontIsPrefix(v: View, x: Id)
    requires InFront(v, x) && Fifo(v, x)
    ensures Got(v.stream) <= Payloads(Mine(v.read, x))
  {
    hide Fifo, Mine, Payloads, Given;
    WireIsLonger(v, x);
  }

  /** In every run: once a stream whose frames stay in order, that was neither reset nor expired,
      and whose peer sends no data behind its FIN, gives end-of-file, the application has been
      returned all the bytes of the wire if and only if no data met a handler before the stream
      was answered. */
  lemma EndIsCompleteExactly(server: bool, run: seq<Action>, x: Id)
    requires Run(server, run).Some? && FreshRun(server, run)
    requires var s := Run(server, run).value;
             Sorted(s, x) && !At(s, x).torn && Clean(Mine(s.read, x)) && At(s, x).eof
    ensures var s := Run(server, run).value;
            At(s, x).reading.returned == Payloads(Mine(s.read, x)) <==> !At(s, x).dropped
  {
    var s := Run(server, run).value;
    if At(s, x).dropped {
      DroppedIsLost(server, run, x);
    } else {
      hide Run, Mine, Clean, Payloads;
      BytesInOrder(server, run, x);
    }
  }

  /** In every run: once data of a stream whose frames stay in order was dropped, the application
      has got less than the wire has brought, whatever else happens. */
  lemma DroppedIsLost(server: bool, run: seq<Action>, x: Id)
    requires Run(server, run).Some? && FreshRun(server, run)
    requires x !in Run(server, run).value.overtaken && At(Run(server, run).value, x).dropped
    ensures var s := Run(server, run).value;
            var st := At(s, x);
            |st.reading.returned + R.Bytes(st.reading.unread)| < |Payloads(Mine(s.read, x))|
  {
    LossRun(server, run, x);
    var v := ViewOf(Run(server, run).value, x);
    hide BytesReady, Run, Mine, Payloads, LanePlaced, LifeInv, Fifo, BytesInv, TornInv;
    BytesParts(Run(server, run).value, x);
    WireIsLonger(v, x);
  }
}
