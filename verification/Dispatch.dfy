/** The switch in the loop of Serve: which queue a frame goes to, and with which priority. */
module Dispatch {
  import opened StreamLife
  import H = Handlers
  import P = Pipeline
  import Session

  class Dispatcher {
    const ids: Session.Connection
    const table: H.StreamTable
    var partitionRoundRobin: P.Index

    constructor (ids: Session.Connection, table: H.StreamTable)
      ensures this.ids == ids && this.table == table && partitionRoundRobin == 0
    {
      this.ids, this.table, partitionRoundRobin := ids, table, 0;
    }

    /** The objects are those of a connection in state s of the pipeline. */
    ghost predicate Represents(s: P.State)
      reads this, ids, table, table.streams.Values
    {
      && partitionRoundRobin == s.turn
      && ids.receivedStreamId == s.received && ids.goneAway == s.goneAway
      && forall x: Id :: if x in table.streams then table.streams[x].record == P.At(s, x) else !P.At(s, x).listed
    }

    /** What Serve does with a frame that it has read: to the queue with it, first to the stream
        table with a new stream, back to reading without a refused one, or out of the loop. It is
        the step with which the pipeline reads the frame, and the objects are in step again. */
    method Route(f: Frame, ghost s: P.State) returns (next: P.Reader)
      requires table.Valid() && Represents(s)
      modifies this`partitionRoundRobin, ids`receivedStreamId
      ensures table.Valid()
      ensures P.Enabled(s, P.Read(f)) ==>
                && next == P.Apply(s, P.Read(f)).reader
                && Represents(P.Apply(s, P.Read(f)))
    {
      ReadChanges(s, f);
      hide P.Apply, P.Enabled, P.At;
      match f {
        case OnStream(id, Syn(_, _), _) =>
          var ok, _ := ids.CheckStreamFrame(id);
          if !ok { return P.Reading; }
          next := P.Adding(f);
        case OnStream(id, _, _) =>
          var priority := table.GetStreamPriority(id);
          next := P.Pushing(f, priority, id % P.FRAME_WORKERS);
        case Ping =>
          next := P.Pushing(f, 0, partitionRoundRobin);
          partitionRoundRobin := (partitionRoundRobin + 1) % P.FRAME_WORKERS;
        case GoAway =>
          next := P.Closing(true);
        case Other =>
          next := P.Pushing(f, 7, partitionRoundRobin);
          partitionRoundRobin := (partitionRoundRobin + 1) % P.FRAME_WORKERS;
      }
    }
  }

  /** What the reading step of the pipeline leaves of what the objects stand for. */
  lemma ReadChanges(s: P.State, f: Frame)
    ensures P.Enabled(s, P.Read(f)) ==>
              var s1 := P.Apply(s, P.Read(f));
              && s1.reader == P.Route(f, s.turn, s.received, s.goneAway, P.At(s, P.IdOf(f)))
              && s1.turn == P.Turned(s.turn, f) && s1.received == P.Bumped(s.received, s.goneAway, f)
              && s1.goneAway == s.goneAway
              && forall x: Id :: P.At(s1, x) == P.At(s, x)
  {
    hide P.Route, P.Turned, P.Bumped, P.Mine;
  }
}
