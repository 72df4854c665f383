/** Streams and the stream table as objects: the methods of stream.go and the frame handlers of
    connection.go, each as it runs when no other thread comes between. Their contracts say that
    they then do what the steps of StreamLife do one by one. */
module Handlers {
  import opened Options
  import L = StreamLife

  datatype Error = WriteClosedStream | CannotReply | WriteFailed

  // -------------------------------------------------------------------------
  // A handler from one of its stages to its return

  function Rank(stage: L.Stage): nat {
    match stage
    case Lookup => 9
    case Serving => 8
    case Remove => 8
    case Shutting => 7
    case Check => 6
    case Mark => 5
    case Offer => 4
    case SendErr => 4
    case FinishShut => 3
    case FinishRemove => 2
    case CloseStart => 1
    case MarkFinished => 0
  }

  /** take is what happens at the channel operation on which the handler may block. */
  function MoveAt(stage: L.Stage, take: L.Move): L.Move {
    if stage.Offer? || stage.SendErr? then take else L.Go
  }

  /** The stream when the handler returns. */
  function Play(f: L.Frame, stage: L.Stage, st: L.Stream, take: L.Move): L.Stream
    decreases Rank(stage)
  {
    var m := MoveAt(stage, take);
    var next := L.NextStage(f, stage, st, m);
    if next.None? then L.Handled(f, stage, st, m)
    else Play(f, next.value, L.Handled(f, stage, st, m), take)
  }

  // -------------------------------------------------------------------------
  // Streams

  /** The fields that handlers and writers share; record is the stream as StreamLife sees it. What
      a reader has left over is in module StreamRead. */
  class Stream {
    const streamId: L.Id
    const remote: bool  // replyCond is not nil
    var priority: L.uint8
    var replied: bool
    var finished: bool
    var startClosed: bool
    var closeClosed: bool
    ghost var record: L.Stream

    ghost predicate Valid()
      reads this
    {
      && record.registered && record.remote == remote && record.priority == priority
      && record.replied == replied && record.finished == finished
      && record.startChan == (if startClosed then 1 else 0)
      && record.closeChan == (if closeClosed then 1 else 0)
      && (startClosed ==> replied)
    }

    /** addStreamFrame, before the stream is added. */
    constructor Accepted(f: L.SynFrame, ghost announced: bool)
      ensures Valid() && streamId == f.id && record == L.Accepted(f, announced)
    {
      streamId, remote, priority := f.id, true, f.content.priority;
      replied, finished := false, f.content.unidirectional;
      startClosed, closeClosed := false, f.fin;
      record := L.Accepted(f, announced);
    }

    /** CreateStream, before the stream is added. */
    constructor Created(id: L.Id, fin: bool, ghost announced: bool)
      ensures Valid() && streamId == id && record == L.Created(fin, announced)
    {
      streamId, remote, priority := id, false, 0;
      replied, finished, startClosed, closeClosed := false, false, false, false;
      record := L.Created(fin, announced);
    }

    method CloseRemoteChannels()
      requires Valid()
      modifies this`closeClosed, this`record
      ensures Valid() && record == L.Shut(old(record)) && closeClosed
    {
      if !closeClosed { closeClosed := true; }
      record := L.Shut(record);
    }

    /** What a handler does at Check, Mark and CloseStart. close(s.startChan) panics on a channel
        that is closed. */
    method CheckReplied(f: L.Frame) returns (yes: bool)
      requires Valid()
      modifies this`record
      ensures Valid() && yes == replied && record.listed == old(record.listed)
      ensures record == L.Handled(f, L.Check, old(record), L.Go)
    {
      record := L.Handled(f, L.Check, record, L.Go);
      return replied;
    }

    method MarkReplied(f: L.Frame)
      requires Valid()
      modifies this`replied, this`record
      ensures Valid() && replied && record.listed == old(record.listed)
      ensures record == L.Handled(f, L.Mark, old(record), L.Go)
    {
      replied := true;
      record := L.Handled(f, L.Mark, record, L.Go);
    }

    method CloseStartChan(f: L.Frame)
      requires Valid() && replied && !startClosed
      modifies this`startClosed, this`record
      ensures Valid() && startClosed && record.listed == old(record.listed)
      ensures record == L.Handled(f, L.CloseStart, old(record), L.Go)
    {
      startClosed := true;
      record := L.Handled(f, L.CloseStart, record, L.Go);
    }

    /** The select of a handler, or its send on startChan: what is taken goes to the application. */
    ghost method Offer(f: L.Frame, stage: L.Stage, take: L.Move)
      requires Valid() && (stage.Offer? || stage.SendErr?)
      modifies this`record
      ensures Valid() && record.listed == old(record.listed)
      ensures record == L.Handled(f, stage, old(record), take)
    {
      record := L.Handled(f, stage, record, take);
    }

    /** removeStream in handleResetFrame takes the stream from the table. */
    ghost method Removed(f: L.Frame)
      requires Valid()
      modifies this`record
      ensures Valid() && !record.listed && record == L.Handled(f, L.Remove, old(record), L.Go)
    {
      record := L.Handled(f, L.Remove, record, L.Go);
    }

    /** closeRemoteChannels in handleResetFrame or remoteStreamFinish. */
    method Shut(f: L.Frame, ghost stage: L.Stage)
      requires Valid() && (stage.Shutting? || stage.FinishShut?)
      modifies this`closeClosed, this`record
      ensures Valid() && closeClosed && record.listed == old(record.listed)
      ensures record == L.Handled(f, stage, old(record), L.Go)
    {
      ghost var start := record;
      CloseRemoteChannels();
      record := L.Handled(f, stage, start, L.Go);
    }

    /** Whether remoteStreamFinish is to remove the stream, which then leaves the table. */
    method CheckFinished(f: L.Frame) returns (remove: bool)
      requires Valid()
      modifies this`record
      ensures Valid() && remove == finished && record.listed == (old(record.listed) && !remove)
      ensures record == L.Handled(f, L.FinishRemove, old(record), L.Go)
    {
      record := L.Handled(f, L.FinishRemove, record, L.Go);
      return finished;
    }

    /** handleResetFrame answers for the peer; the error is taken by whoever waits for a reply. */
    method Reject(f: L.Frame)
      requires Valid() && !replied
      modifies this`replied, this`startClosed, this`record
      ensures Valid() && replied && startClosed && record.listed == old(record.listed)
      ensures record == L.Handled(f, L.CloseStart,
                L.Handled(f, L.SendErr, L.Handled(f, L.Mark, old(record), L.Go), L.TakeError), L.Go)
    {
      hide L.Handled;
      MarkReplied(f);
      Offer(f, L.SendErr, L.TakeError);
      CloseStartChan(f);
    }

    method MarkFinished(f: L.Frame)
      requires Valid()
      modifies this`finished, this`record
      ensures Valid() && finished && replied == old(replied) && record.listed == old(record.listed)
      ensures record == L.Handled(f, L.MarkFinished, old(record), L.Go)
    {
      finished := true;
      record := L.Handled(f, L.MarkFinished, record, L.Go);
    }

    /** handleResetFrame, once it has removed the stream from the table. */
    method EndByReset(f: L.Frame)
      requires Valid() && f.OnStream? && f.content.Rst? && record.listed
      modifies this`replied, this`finished, this`startClosed, this`closeClosed, this`record
      ensures Valid() && !record.listed && closeClosed && replied && finished
      ensures record == Play(f, L.Lookup, old(record), L.TakeError)
    {
      PlayReset(f, record);
      hide L.Handled, Play;
      Removed(f);
      Shut(f, L.Shutting);
      var yes := CheckReplied(f);
      if !yes { Reject(f); }
      MarkFinished(f);
    }

    /** Up to the write of the frame; written tells whether there is one. Whoever waits in
        waitWriteReply is not modelled: the caller of a stream of the peer has replied. */
    method WriteData(fin: bool) returns (written: bool, err: Option<Error>)
      requires Valid() && (remote ==> replied)
      modifies this`finished, this`record
      ensures Valid()
      ensures record == if fin then L.Used(old(record), L.WriteFin) else old(record)
      ensures written == (fin ==> !old(finished))
      ensures err == if written then None else Some(WriteClosedStream)
      ensures fin ==> finished && record.terminal == old(record.terminal) + (if written then 1 else 0)
    {
      if fin {
        record := L.Used(record, L.WriteFin);
        if finished { return false, Some(WriteClosedStream); }
        finished := true;
      }
      return true, None;
    }

    /** Up to the write of the RST_STREAM frame. */
    method ResetStream() returns (written: bool)
      requires Valid()
      modifies this`finished, this`closeClosed, this`record
      ensures Valid() && closeClosed && finished && written == !old(finished)
      ensures record == L.Used(L.Used(old(record), L.ResetShut), L.ResetFinish)
      ensures record.terminal == old(record.terminal) + (if written then 1 else 0)
    {
      ghost var start := record;
      CloseRemoteChannels();
      record := L.Used(start, L.ResetShut);
      written := !finished;
      record := L.Used(record, L.ResetFinish);
      finished := true;
    }

    /** succeeds tells how writing the reply frame ends, if it is written. */
    method SendReply(succeeds: bool) returns (written: bool, err: Option<Error>)
      requires Valid()
      modifies this`replied, this`record
      ensures Valid()
      ensures written == (remote && !old(replied))
      ensures err == if !remote then Some(CannotReply) else if written && !succeeds then Some(WriteFailed) else None
      ensures record == if err.None? then L.Used(old(record), L.Answer) else old(record)
    {
      if !remote { return false, Some(CannotReply); }
      written := !replied;
      if written && !succeeds { return true, Some(WriteFailed); }
      replied := true;
      record := L.Used(record, L.Answer);
      err := None;
    }
  }

  // -------------------------------------------------------------------------
  // The stream table and the handlers

  class StreamTable {
    var streams: map<L.Id, Stream>

    ghost predicate Valid()
      reads this, streams.Values
    {
      forall x | x in streams :: streams[x].Valid() && streams[x].streamId == x && streams[x].record.listed
    }

    constructor ()
      ensures Valid() && streams == map[]
    {
      streams := map[];
    }

    /** A stream already in the table under this id is lost to it. */
    method AddStream(stream: Stream)
      requires Valid() && stream.Valid() && stream.record.listed
      modifies this
      ensures Valid() && streams == old(streams)[stream.streamId := stream]
    {
      streams := streams[stream.streamId := stream];
    }

    method RemoveStream(stream: Stream)
      modifies this
      ensures streams == old(streams) - {stream.streamId}
    {
      streams := streams - {stream.streamId};
    }

    method GetStreamPriority(id: L.Id) returns (priority: L.uint8)
      requires Valid()
      ensures priority == if id in streams then L.PriorityOf(streams[id].record) else L.LEAST_URGENT
    {
      if id !in streams { return 7; }
      return streams[id].priority;
    }

    /** The two steps that end the peer's half. */
    method RemoteStreamFinish(stream: Stream, f: L.Frame)
      requires Valid() && stream.streamId in streams && streams[stream.streamId] == stream
      modifies this, stream`closeClosed, stream`record
      ensures Valid() && stream.Valid() && stream.record.replied == old(stream.record.replied)
      ensures stream.record == L.Handled(f, L.FinishRemove, L.Handled(f, L.FinishShut, old(stream.record), L.Go), L.Go)
      ensures streams == if stream.record.listed then old(streams) else old(streams) - {stream.streamId}
    {
      hide L.Handled;
      stream.Shut(f, L.FinishShut);
      var remove := stream.CheckFinished(f);
      if remove { RemoveStream(stream); }
    }

    /** The handler of f has gone through all its stages with this stream of the table. */
    ghost predicate Went(f: L.Frame, take: L.Move, stream: Stream, st: L.Stream, table: map<L.Id, Stream>)
      requires f.OnStream?
      reads this, stream
    {
      && stream.Valid()
      && stream.record == Play(f, L.Lookup, st, take)
      && streams == if stream.record.listed then table else table - {f.id}
    }

    method HandleReplyFrame(f: L.Frame)
      requires Valid() && f.OnStream? && f.content.Reply?
      modifies this, if f.id in streams then {streams[f.id]} else {}
      ensures Valid()
      ensures if f.id in old(streams)
              then Went(f, L.Go, old(streams)[f.id], old(streams[f.id].record), old(streams))
              else streams == old(streams)
    {
      if f.id !in streams { return; }
      var stream := streams[f.id];
      PlayReply(f, stream.record);
      hide L.Handled, Play;
      var replied := stream.CheckReplied(f);
      if !replied { StreamReplied(stream, f); }
    }

    /** handleReplyFrame for the first reply. */
    method StreamReplied(stream: Stream, f: L.Frame)
      requires Valid() && stream.streamId in streams && streams[stream.streamId] == stream
      requires f.OnStream? && f.content.Reply? && !stream.replied
      modifies this, stream
      ensures Valid() && stream.Valid()
      ensures stream.record ==
                L.Handled(f, L.CloseStart, Finish(f, L.Handled(f, L.Mark, old(stream.record), L.Go)), L.Go)
      ensures streams == if stream.record.listed then old(streams) else old(streams) - {stream.streamId}
    {
      hide L.Handled;
      stream.MarkReplied(f);
      if f.fin { RemoteStreamFinish(stream, f); }
      stream.CloseStartChan(f);
    }

    /** take is the outcome of the select, if the handler gets to it. */
    method HandleDataFrame(f: L.Frame, take: L.Move)
      requires Valid() && f.OnStream? && f.content.Data?
      requires f.id in streams && L.Payload(f) != [] ==> L.CanAdvance(f, L.Offer, streams[f.id].record, take)
      modifies this, if f.id in streams then {streams[f.id]} else {}
      ensures Valid()
      ensures if f.id in old(streams)
              then Went(f, take, old(streams)[f.id], old(streams[f.id].record), old(streams))
              else streams == old(streams)
    {
      if f.id !in streams { return; }
      var stream := streams[f.id];
      PlayData(f, stream.record, take);
      hide L.Handled, Play;
      var replied := stream.CheckReplied(f);
      if !replied { return; }
      if |f.content.payload| > 0 { stream.Offer(f, L.Offer, take); }
      if f.fin { RemoteStreamFinish(stream, f); }
    }

    method HandleHeaderFrame(f: L.Frame, take: L.Move)
      requires Valid() && f.OnStream? && f.content.Headers?
      requires f.id in streams ==> L.CanAdvance(f, L.Offer, streams[f.id].record, take)
      modifies this, if f.id in streams then {streams[f.id]} else {}
      ensures Valid()
      ensures if f.id in old(streams)
              then Went(f, take, old(streams)[f.id], old(streams[f.id].record), old(streams))
              else streams == old(streams)
    {
      if f.id !in streams { return; }
      var stream := streams[f.id];
      PlayHeaders(f, stream.record, take);
      hide L.Handled, Play;
      var replied := stream.CheckReplied(f);
      if !replied { return; }
      stream.Offer(f, L.Offer, take);
      if take.Skip? { return; }
      if f.fin { RemoteStreamFinish(stream, f); }
    }

    method HandleResetFrame(f: L.Frame)
      requires Valid() && f.OnStream? && f.content.Rst?
      modifies this, if f.id in streams then {streams[f.id]} else {}
      ensures Valid()
      ensures if f.id in old(streams)
              then Went(f, L.TakeError, old(streams)[f.id], old(streams[f.id].record), old(streams))
              else streams == old(streams)
    {
      if f.id !in streams { return; }
      var stream := streams[f.id];
      hide Play;
      RemoveStream(stream);
      stream.EndByReset(f);
    }
  }

  // -------------------------------------------------------------------------
  // The stages in a row

  function Finish(f: L.Frame, st: L.Stream): L.Stream {
    if L.Ends(f) then L.Handled(f, L.FinishRemove, L.Handled(f, L.FinishShut, st, L.Go), L.Go) else st
  }

  lemma PlayLookup(f: L.Frame, st: L.Stream, take: L.Move)
    requires st.listed && f.OnStream? && !f.content.Syn?
    ensures Play(f, L.Lookup, st, take) == Play(f, if f.content.Rst? then L.Remove else L.Check, st, take)
  {
    assert L.Handled(f, L.Lookup, st, L.Go) == st;
    hide L.Handled;
  }

  lemma PlayFinish(f: L.Frame, st: L.Stream, take: L.Move)
    requires f.OnStream?
    ensures Play(f, L.FinishShut, st, take) ==
              var r := L.Handled(f, L.FinishRemove, L.Handled(f, L.FinishShut, st, L.Go), L.Go);
              if f.content.Reply? then L.Handled(f, L.CloseStart, r, L.Go) else r
  {
    hide L.Handled;
  }

  lemma PlayReply(f: L.Frame, st: L.Stream)
    requires f.OnStream? && f.content.Reply? && st.listed
    ensures var r := L.Handled(f, L.Check, st, L.Go);
            Play(f, L.Lookup, st, L.Go) ==
              if st.replied then r
              else L.Handled(f, L.CloseStart, Finish(f, L.Handled(f, L.Mark, r, L.Go)), L.Go)
  {
    hide L.Handled;
    PlayLookup(f, st, L.Go);
    PlayMark(f, L.Handled(f, L.Check, st, L.Go));
    hide Play;
    PlayCheck(f, st, L.Go);
  }

  lemma PlayCheck(f: L.Frame, st: L.Stream, take: L.Move)
    requires f.OnStream? && (f.content.Reply? || f.content.Rst?)
    ensures var r := L.Handled(f, L.Check, st, L.Go);
            Play(f, L.Check, st, take) ==
              if !st.replied then Play(f, L.Mark, r, take)
              else if f.content.Reply? then r else Play(f, L.MarkFinished, r, take)
  {
    hide L.Handled;
  }

  lemma PlayMark(f: L.Frame, st: L.Stream)
    requires f.OnStream? && f.content.Reply?
    ensures Play(f, L.Mark, st, L.Go) ==
              L.Handled(f, L.CloseStart, Finish(f, L.Handled(f, L.Mark, st, L.Go)), L.Go)
  {
    hide L.Handled;
    PlayFinish(f, L.Handled(f, L.Mark, st, L.Go), L.Go);
  }

  lemma PlayData(f: L.Frame, st: L.Stream, take: L.Move)
    requires f.OnStream? && f.content.Data? && st.listed
    ensures var r := L.Handled(f, L.Check, st, L.Go);
            Play(f, L.Lookup, st, take) ==
              if !st.replied then r
              else Finish(f, if f.content.payload == [] then r else L.Handled(f, L.Offer, r, take))
  {
    hide L.Handled;
    PlayLookup(f, st, take);
    var r := L.Handled(f, L.Check, st, L.Go);
    PlayFinish(f, r, take);
    PlayFinish(f, L.Handled(f, L.Offer, r, take), take);
  }

  lemma PlayHeaders(f: L.Frame, st: L.Stream, take: L.Move)
    requires f.OnStream? && f.content.Headers? && st.listed
    ensures var r := L.Handled(f, L.Check, st, L.Go);
            Play(f, L.Lookup, st, take) ==
              if !st.replied then r
              else
                var r1 := L.Handled(f, L.Offer, r, take);
                if take.Skip? then r1 else Finish(f, r1)
  {
    hide L.Handled;
    PlayLookup(f, st, take);
    var r := L.Handled(f, L.Check, st, L.Go);
    PlayFinish(f, L.Handled(f, L.Offer, r, take), take);
  }

  lemma PlayReset(f: L.Frame, st: L.Stream)
    requires f.OnStream? && f.content.Rst? && st.listed
    ensures var r := L.Handled(f, L.Shutting, L.Handled(f, L.Remove, st, L.Go), L.Go);
            var r1 := L.Handled(f, L.Check, r, L.Go);
            var r2 := L.Handled(f, L.SendErr, L.Handled(f, L.Mark, r1, L.Go), L.TakeError);
            Play(f, L.Lookup, st, L.TakeError) ==
              L.Handled(f, L.MarkFinished, if r.replied then r1 else L.Handled(f, L.CloseStart, r2, L.Go), L.Go)
  {
    hide L.Handled;
    PlayLookup(f, st, L.TakeError);
    var r := L.Handled(f, L.Shutting, L.Handled(f, L.Remove, st, L.Go), L.Go);
    assert Play(f, L.Remove, st, L.TakeError) == Play(f, L.Check, r, L.TakeError);
    hide Play;
    PlayCheck(f, r, L.TakeError);
    PlayMarkReset(f, L.Handled(f, L.Check, r, L.Go));
  }

  lemma PlayMarkReset(f: L.Frame, st: L.Stream)
    requires f.OnStream? && f.content.Rst?
    ensures var r := L.Handled(f, L.SendErr, L.Handled(f, L.Mark, st, L.Go), L.TakeError);
            Play(f, L.Mark, st, L.TakeError) == L.Handled(f, L.MarkFinished, L.Handled(f, L.CloseStart, r, L.Go), L.Go)
    ensures Play(f, L.MarkFinished, st, L.TakeError) == L.Handled(f, L.MarkFinished, st, L.Go)
  {
    hide L.Handled;
    var r := L.Handled(f, L.SendErr, L.Handled(f, L.Mark, st, L.Go), L.TakeError);
    assert Play(f, L.MarkFinished, st, L.TakeError) == L.Handled(f, L.MarkFinished, st, L.Go);
    PlayCloseStart(f, r);
  }

  lemma PlayCloseStart(f: L.Frame, st: L.Stream)
    requires f.OnStream? && f.content.Rst?
    ensures Play(f, L.CloseStart, st, L.TakeError)
              == L.Handled(f, L.MarkFinished, L.Handled(f, L.CloseStart, st, L.Go), L.Go)
  {
    hide L.Handled;
  }
}
