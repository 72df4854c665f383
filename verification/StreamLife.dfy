/** The life of one stream: the fields of Stream in stream.go, what the threads of the
    application do to them, and what the frame handlers of connection.go do to them. Each step
    here is one critical section or one channel operation. */
module StreamLife {
  import B = Bytes
  import opened Options
  import Q = StableQueue
  import R = StreamRead

  type Id = B.uint32
  type uint8 = Q.uint8

  const LEAST_URGENT: uint8 := 7

  // -------------------------------------------------------------------------
  // Frames as the handlers see them

  datatype Content =
    | Syn(priority: uint8, unidirectional: bool)
    | Reply
    | Data(payload: seq<B.byte>)
    | Rst
    | Headers

  datatype Frame = OnStream(id: Id, content: Content, fin: bool) | Ping | GoAway | Other

  type SynFrame = f: Frame | f.OnStream? && f.content.Syn? witness OnStream(1, Syn(0, false), false)

  function Payload(f: Frame): seq<B.byte> {
    if f.OnStream? && f.content.Data? then f.content.payload else []
  }

  /** The frame carries the flag with which the peer ends its half of the stream. */
  predicate Ends(f: Frame) {
    f.OnStream? && f.fin && !f.content.Rst?
  }

  // -------------------------------------------------------------------------
  // The fields of a stream

  /** registered and listed: the stream was added to the table, and is still in it. remote: the
      peer created it. opening: CreateStream has yet to set finished for a stream created with
      the fin flag. startChan and closeChan count how often the channel was closed. removing and
      shutting count the threads that run Reset, before and after their closeRemoteChannels.
      expiring: the idle monitor took the stream from the table, and the goroutine that it
      started has yet to close its channel. terminal counts the DATA frames with FIN and the
      RST_STREAM frames that WriteData and resetStream started to write.

      The last three are history. announced: no frame of the stream was read before it was
      registered. torn: the stream was reset by either side or expired. dropped: some data met
      a stream that had not been answered. */
  datatype Stream = Stream(
    registered: bool, listed: bool, remote: bool, opening: bool, priority: uint8,
    replied: bool, finished: bool, startChan: nat, closeChan: nat,
    reading: R.Outcome, eof: bool,
    removing: nat, shutting: nat, expiring: bool, terminal: nat,
    announced: bool, torn: bool, dropped: bool)

  const NOBODY := Stream(false, false, false, false, 0, false, false, 0, 0,
                         R.Outcome([], None), false, 0, 0, false, 0, false, false, false)

  /** addStreamFrame. */
  function Accepted(f: SynFrame, announced: bool): Stream {
    NOBODY.(registered := true, listed := true, remote := true,
            priority := f.content.priority, finished := f.content.unidirectional,
            closeChan := if f.fin then 1 else 0, announced := announced)
  }

  /** CreateStream up to and including addStream. */
  function Created(fin: bool, announced: bool): Stream {
    NOBODY.(registered := true, listed := true, opening := fin, announced := announced)
  }

  predicate Closed(st: Stream) {
    st.closeChan > 0
  }

  /** closeRemoteChannels. */
  function Shut(st: Stream): Stream {
    st.(closeChan := if Closed(st) then st.closeChan else st.closeChan + 1)
  }

  /** getStreamPriority. */
  function PriorityOf(st: Stream): uint8 {
    if st.listed then st.priority else LEAST_URGENT
  }

  /** st1 is st at a later time. */
  ghost predicate Later(st: Stream, st1: Stream) {
    && (st.registered ==> st1.registered)
    && (st1.listed ==> st.listed)
    && (st.finished ==> st1.finished)
    && (st.replied ==> st1.replied)
    && (Closed(st) ==> Closed(st1))
    && (st.eof ==> st1.eof)
    && (st.torn ==> st1.torn)
    && (st.dropped ==> st1.dropped)
    && st1.announced == st.announced
  }

  // -------------------------------------------------------------------------
  // The application, the monitor and Serve

  datatype Use =
    | Open                      // sendStream with the fin flag
    | Answer                    // SendReply or Refuse
    | ReadRest(room: nat)       // Read with bytes left over
    | ReadEof                   // Read or ReadData finds closeChan closed
    | SetPriority(priority: uint8)
    | CloseRemove               // the select with which Close begins
    | WriteFin                  // WriteData with the fin flag, up to its write
    | ResetRemove               // Reset: removeStream
    | ResetShut                 // resetStream: closeRemoteChannels
    | ResetFinish               // resetStream: the section under finishLock
    // the same, by the goroutine of expiry number k
    | ExpiryShut(k: nat)
    | ExpiryFinish(k: nat)
    | ExpiryWritten(k: nat)     // its write of RST_STREAM returns

  predicate OfExpiry(u: Use) {
    u.ExpiryShut? || u.ExpiryFinish? || u.ExpiryWritten?
  }

  predicate CanUse(st: Stream, u: Use) {
    && st.registered
    && match u
       case Open => st.opening
       case ReadRest(_) => st.reading.unread.Some?
       case ReadEof => st.reading.unread.None? && Closed(st)
       case CloseRemove => Closed(st)
       case WriteFin => st.remote ==> st.replied
       case ResetShut => st.removing > 0
       case ResetFinish => st.shutting > 0
       case ExpiryShut(_) => st.expiring
       case _ => true
  }

  /** The idle monitor empties the table. */
  function Expired(st: Stream): Stream {
    if st.listed then st.(listed := false, torn := true, expiring := true) else st
  }

  /** The section of WriteData or resetStream that decides whether a last frame is written. */
  function Finish(st: Stream): Stream {
    st.(finished := true, terminal := if st.finished then st.terminal else st.terminal + 1)
  }

  function Fewer(n: nat): nat {
    if n == 0 then 0 else n - 1
  }

  function Used(st: Stream, u: Use): Stream {
    match u
    case Open => st.(finished := true, opening := false)
    case Answer => st.(replied := true)
    case ReadRest(room) => st.(reading := R.Answer(st.reading, R.Read(room, R.Closed)))
    case ReadEof => st.(eof := true)
    case SetPriority(p) => st.(priority := p)
    case CloseRemove => st.(listed := false)
    case WriteFin => Finish(st)
    case ResetRemove => st.(listed := false, torn := true, removing := st.removing + 1)
    case ResetShut => Shut(st).(removing := Fewer(st.removing), shutting := st.shutting + 1)
    case ResetFinish => Finish(st).(shutting := Fewer(st.shutting))
    case ExpiryShut(_) => Shut(st).(expiring := false)
    case ExpiryFinish(_) => Finish(st)
    case ExpiryWritten(_) => st
  }

  // -------------------------------------------------------------------------
  // The frame handlers

  /** Where a handler is. */
  datatype Stage =
    | Lookup        // getStream
    | Serving       // the application's handler of new streams
    | Remove        // handleResetFrame: removeStream
    | Shutting      // handleResetFrame: closeRemoteChannels
    | Check         // looks at replied
    | Mark          // sets replied
    | Offer         // the select that hands over data or headers
    | FinishShut    // remoteStreamFinish: closeRemoteChannels
    | FinishRemove  // remoteStreamFinish: the section under finishLock
    | SendErr       // startChan <- ErrReset
    | CloseStart    // close(startChan)
    | MarkFinished  // handleResetFrame: the section under finishLock

  /** Go is the next statement; the others are the outcomes of an operation on a channel: the
      select finds closeChan closed, or a call of the application takes what is offered. */
  datatype Move = Go | Skip | Hand(call: R.Call) | TakeHeaders | TakeError

  predicate CanAdvance(f: Frame, stage: Stage, st: Stream, m: Move) {
    match m
    case Go => !stage.Offer? && !stage.SendErr?
    case Skip => stage.Offer? && Closed(st)
    case Hand(call) =>
      stage.Offer? && f.OnStream? && f.content.Data?
      && st.reading.unread.None? && call.arrival == R.Payload(f.content.payload)
    case TakeHeaders => stage.Offer? && f.OnStream? && f.content.Headers?
    case TakeError => stage.SendErr?
  }

  /** What follows once the body of a frame is dealt with; None is the return of the handler. */
  function Ending(f: Frame): Option<Stage> {
    if Ends(f) then Some(FinishShut) else None
  }

  function NextStage(f: Frame, stage: Stage, st: Stream, m: Move): Option<Stage> {
    if !f.OnStream? then None
    else
      match stage
      case Lookup =>
        if !st.listed then None
        else if f.content.Syn? then Some(Serving)
        else if f.content.Rst? then Some(Remove)
        else Some(Check)
      case Serving => None
      case Remove => Some(Shutting)
      case Shutting => Some(Check)
      case Check =>
        (match f.content
         case Reply => if st.replied then None else Some(Mark)
         case Rst => if st.replied then Some(MarkFinished) else Some(Mark)
         case Data(payload) =>
           if !st.replied then None else if payload == [] then Ending(f) else Some(Offer)
         case _ => if !st.replied then None else Some(Offer))
      case Mark =>
        if f.content.Rst? then Some(SendErr) else if f.fin then Some(FinishShut) else Some(CloseStart)
      case Offer => if m.Skip? && f.content.Headers? then None else Ending(f)
      case FinishShut => Some(FinishRemove)
      case FinishRemove => if f.content.Reply? then Some(CloseStart) else None
      case SendErr => Some(CloseStart)
      case CloseStart => if f.content.Rst? then Some(MarkFinished) else None
      case MarkFinished => None
  }

  /** The stream after the handler has left a stage. */
  function Handled(f: Frame, stage: Stage, st: Stream, m: Move): Stream {
    st.(listed := st.listed && !stage.Remove? && !(stage.FinishRemove? && st.finished),
        torn := st.torn || stage.Remove?,
        closeChan := if (stage.Shutting? || stage.FinishShut?) && !Closed(st) then st.closeChan + 1 else st.closeChan,
        dropped := st.dropped || (stage.Check? && !st.replied && Payload(f) != []),
        replied := st.replied || stage.Mark?,
        reading := if stage.Offer? && m.Hand? then R.Answer(st.reading, m.call) else st.reading,
        startChan := if stage.CloseStart? then st.startChan + 1 else st.startChan,
        finished := st.finished || stage.MarkFinished?)
  }

  /** No stage of a handler reverts a flag. */
  lemma HandledIsLater(f: Frame, stage: Stage, st: Stream, m: Move)
    ensures Later(st, Handled(f, stage, st, m))
  {
    hide R.Answer, Payload;
  }

  /** No stage of a handler moves bytes other than by a hand-over or changes a priority, and only
      two of them close the channel. */
  lemma HandledKeeps(f: Frame, stage: Stage, st: Stream, m: Move)
    ensures var r := Handled(f, stage, st, m);
            && r.registered == st.registered && r.eof == st.eof && r.priority == st.priority
            && r.announced == st.announced && r.expiring == st.expiring
            && (!m.Hand? || !stage.Offer? ==> r.reading == st.reading)
            && (!stage.Shutting? && !stage.FinishShut? ==> Closed(r) == Closed(st))
  {
    hide R.Answer, Payload;
  }

  // -------------------------------------------------------------------------
  // The invariant of a stream together with the handler that works on one of its frames

  datatype Task = Free | On(frame: Frame, stage: Stage)

  predicate Fits(f: Frame, stage: Stage) {
    && f.OnStream?
    && match stage
       case Lookup => true
       case Serving => f.content.Syn?
       case Check => !f.content.Syn?
       case Mark => f.content.Reply? || f.content.Rst?
       case CloseStart => f.content.Reply? || f.content.Rst?
       case Offer => f.content.Headers? || Payload(f) != []
       case FinishShut => Ends(f) && !f.content.Syn?
       case FinishRemove => Ends(f) && !f.content.Syn?
       case _ => f.content.Rst?
  }

  /** The handler has set replied, and has yet to close startChan. */
  predicate Answering(t: Task) {
    t.On? && (t.stage.SendErr? || t.stage.CloseStart?
              || ((t.stage.FinishShut? || t.stage.FinishRemove?) && Fits(t.frame, t.stage) && t.frame.content.Reply?))
  }

  ghost predicate ChannelInv(t: Task, st: Stream) {
    && st.closeChan <= 1
    && st.startChan <= 1
    && (st.startChan > 0 || Answering(t) ==> st.replied)
    && (Answering(t) || (t.On? && t.stage.Mark?) ==> st.startChan == 0)
    && (st.eof || (t.On? && t.stage.FinishRemove?) ==> Closed(st))
  }

  /** No reader is orphaned: a stream that has left the table has its closeChan closed, or the
      thread that removed it is still to close it. */
  ghost predicate TableInv(t: Task, st: Stream) {
    && (st.registered ==> st.listed || Closed(st) || st.removing > 0 || st.expiring || (t.On? && t.stage.Shutting?))
    && (st.removing > 0 || st.expiring || (t.On? && t.stage.Shutting?) ==> st.torn)
    && (st.expiring ==> !st.listed)
  }

  ghost predicate FieldInv(st: Stream) {
    && (st.listed || st.announced || st.expiring ==> st.registered)
    && (st.terminal > 0 ==> st.finished) && st.terminal <= 1
  }

  ghost predicate TaskInv(t: Task, st: Stream) {
    t.On? ==> Fits(t.frame, t.stage) && (!t.stage.Lookup? ==> st.registered)
  }

  ghost predicate LifeInv(t: Task, st: Stream) {
    ChannelInv(t, st) && TableInv(t, st) && FieldInv(st) && TaskInv(t, st)
  }

  /** A frame may be on its way to a stream that does not exist yet. */
  lemma BornAlive(t: Task, f: SynFrame, fin: bool, announced: bool)
    requires t.On? ==> t.frame.OnStream? && t.stage.Lookup?
    ensures LifeInv(t, Accepted(f, announced)) && LifeInv(t, Created(fin, announced))
  {}

  lemma LookupKeeps(st: Stream, f: Frame)
    requires LifeInv(Free, st) && f.OnStream?
    ensures LifeInv(On(f, Lookup), st)
  {}

  lemma UseKeepsChannels(t: Task, st: Stream, u: Use)
    requires ChannelInv(t, st) && CanUse(st, u)
    ensures ChannelInv(t, Used(st, u))
  {
    hide R.Answer, Answering;
  }

  lemma UseKeepsTable(t: Task, st: Stream, u: Use)
    requires TableInv(t, st) && CanUse(st, u)
    ensures TableInv(t, Used(st, u))
  {
    hide R.Answer;
  }

  lemma UseKeepsFields(st: Stream, u: Use)
    requires FieldInv(st) && CanUse(st, u)
    ensures FieldInv(Used(st, u)) && Used(st, u).registered
  {
    hide R.Answer;
  }

  lemma UseKeeps(t: Task, st: Stream, u: Use)
    requires LifeInv(t, st) && CanUse(st, u)
    ensures LifeInv(t, Used(st, u))
  {
    hide Used, CanUse, ChannelInv, TableInv, FieldInv, Fits;
    UseKeepsChannels(t, st, u);
    UseKeepsTable(t, st, u);
    UseKeepsFields(st, u);
  }

  lemma ShutKeeps(t: Task, st: Stream)
    requires LifeInv(t, st)
    ensures LifeInv(t, Shut(st))
  {
    hide Answering, Fits;
  }

  /** The sweep ends with the table empty. */
  lemma SweptKeeps(t: Task, st: Stream)
    requires LifeInv(t, st) && (st.listed ==> Closed(st))
    ensures LifeInv(t, st.(listed := false))
  {
    hide Answering, Fits;
  }

  lemma ExpiryKeeps(t: Task, st: Stream)
    requires LifeInv(t, st)
    ensures LifeInv(t, Expired(st))
  {
    hide Answering, Fits;
  }

  function NextTask(f: Frame, next: Option<Stage>): Task {
    if next.None? then Free else On(f, next.value)
  }

  lemma AdvanceKeepsChannels(f: Frame, stage: Stage, st: Stream, m: Move)
    requires ChannelInv(On(f, stage), st) && TaskInv(On(f, stage), st) && CanAdvance(f, stage, st, m)
    ensures ChannelInv(NextTask(f, NextStage(f, stage, st, m)), Handled(f, stage, st, m))
  {
    hide R.Answer;
  }

  lemma AdvanceKeepsTable(f: Frame, stage: Stage, st: Stream, m: Move)
    requires TableInv(On(f, stage), st) && ChannelInv(On(f, stage), st) && TaskInv(On(f, stage), st)
    requires CanAdvance(f, stage, st, m)
    ensures TableInv(NextTask(f, NextStage(f, stage, st, m)), Handled(f, stage, st, m))
  {
    hide R.Answer;
  }

  lemma AdvanceKeepsFields(f: Frame, stage: Stage, st: Stream, m: Move)
    requires FieldInv(st) && TaskInv(On(f, stage), st) && CanAdvance(f, stage, st, m)
    ensures FieldInv(Handled(f, stage, st, m))
  {
    hide R.Answer;
  }

  lemma AdvanceKeepsTask(f: Frame, stage: Stage, st: Stream, m: Move)
    requires FieldInv(st) && TaskInv(On(f, stage), st) && CanAdvance(f, stage, st, m)
    ensures TaskInv(NextTask(f, NextStage(f, stage, st, m)), Handled(f, stage, st, m))
  {
    hide R.Answer;
  }

  lemma AdvanceKeeps(f: Frame, stage: Stage, st: Stream, m: Move)
    requires LifeInv(On(f, stage), st) && CanAdvance(f, stage, st, m)
    ensures LifeInv(NextTask(f, NextStage(f, stage, st, m)), Handled(f, stage, st, m))
  {
    hide NextTask, NextStage, Handled, CanAdvance, ChannelInv, TableInv, FieldInv, TaskInv;
    AdvanceKeepsChannels(f, stage, st, m);
    AdvanceKeepsTable(f, stage, st, m);
    AdvanceKeepsFields(f, stage, st, m);
    AdvanceKeepsTask(f, stage, st, m);
  }

  lemma UseKeepsReading(st: Stream, u: Use)
    requires !u.ReadRest?
    ensures Used(st, u).reading == st.reading
    ensures !u.ResetShut? && !u.ExpiryShut? && Closed(Used(st, u)) ==> Closed(st)
    ensures !u.ReadEof? && Used(st, u).eof ==> st.eof
  {
    hide R.Answer;
    match u {
      case Open => case Answer => case ReadRest(_) => case ReadEof => case SetPriority(_) =>
      case CloseRemove => case WriteFin => case ResetRemove => case ResetShut => case ResetFinish =>
      case ExpiryShut(_) => case ExpiryFinish(_) => case ExpiryWritten(_) =>
    }
  }

  lemma UseIsLater(st: Stream, u: Use)
    ensures Later(st, Used(st, u))
  {
    hide R.Answer;
    match u {
      case Open => case Answer => case ReadRest(_) => case ReadEof => case SetPriority(_) =>
      case CloseRemove => case WriteFin => case ResetRemove => case ResetShut => case ResetFinish =>
      case ExpiryShut(_) => case ExpiryFinish(_) => case ExpiryWritten(_) =>
    }
  }
}
