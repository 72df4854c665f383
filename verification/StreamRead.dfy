/** Reading a stream in chunks: Stream.Read and Stream.ReadData of stream.go. */
module StreamRead {
  import opened B = Bytes
  import opened Options

  /** What the select of a read gets: the channel of the stream is closed, or the payload that
      the frame handler hands over. */
  datatype Arrival = Closed | Payload(data: seq<byte>)

  datatype Error = Eof | UnreadPartialData

  function Bytes(unread: Option<seq<byte>>): seq<byte> {
    if unread.Some? then unread.value else []
  }

  datatype Call = Read(room: nat, arrival: Arrival) | ReadData(arrival: Arrival)

  /** The slice that a read copies from: what is left of the last frame, or a new frame. */
  function Source(unread: Option<seq<byte>>, arrival: Arrival): Option<seq<byte>> {
    if unread.Some? then unread
    else if arrival.Payload? then Some(arrival.data) else None
  }

  /** The leading part of a slice that fits into a buffer, and what then stays unread. */
  function Fitting(source: seq<byte>, room: nat): seq<byte> {
    if |source| <= room then source else source[..room]
  }

  function Remaining(source: seq<byte>, room: nat): Option<seq<byte>> {
    if room < |source| then Some(source[room..]) else None
  }

  lemma Chunk(source: seq<byte>, room: nat)
    ensures Fitting(source, room) + Bytes(Remaining(source, room)) == source
    ensures Remaining(source, room).Some? ==> Remaining(source, room).value != []
    ensures source != [] && 0 < room ==> Fitting(source, room) != []
  {}

  /** The bytes that the calls so far have returned, and what they left unread. */
  datatype Outcome = Outcome(returned: seq<byte>, unread: Option<seq<byte>>)

  function Answer(o: Outcome, call: Call): Outcome {
    match call
    case Read(room, arrival) =>
      var source := Source(o.unread, arrival);
      if source.None? then o
      else Outcome(o.returned + Fitting(source.value, room), Remaining(source.value, room))
    case ReadData(arrival) =>
      if o.unread.Some? || arrival.Closed? then o else o.(returned := o.returned + arrival.data)
  }

  /** What a call takes from dataChan: a frame's payload, if it has to wait for one. */
  function Received(o: Outcome, call: Call): seq<byte> {
    if o.unread.None? && call.arrival.Payload? then call.arrival.data else []
  }

  /** The field of Stream that only its reader touches. */
  class StreamReader {
    var unread: Option<seq<byte>>
    ghost var taken: seq<byte>     // the payloads received from dataChan, in a row
    ghost var returned: seq<byte>  // the bytes handed to the application, in a row

    /** No byte is lost, made up or reordered, and unread is nil or has something in it. */
    ghost predicate Valid()
      reads this
    {
      && returned + Bytes(unread) == taken
      && (unread.Some? ==> unread.value != [])
    }

    ghost function State(): Outcome
      reads this
    {
      Outcome(returned, unread)
    }

    constructor ()
      ensures Valid() && unread == None && taken == [] && returned == []
    {
      unread := None;
      taken, returned := [], [];
    }

    method Read(p: array<byte>, arrival: Arrival) returns (n: nat, err: Option<Error>)
      requires Valid()
      modifies this, p
      ensures Valid()
      ensures State() == Answer(old(State()), Call.Read(p.Length, arrival))
      ensures taken == old(taken) + Received(old(State()), Call.Read(p.Length, arrival))
      ensures err == if old(unread).None? && arrival.Closed? then Some(Eof) else None
      ensures n <= p.Length && p[n..] == old(p[n..])
      ensures returned == old(returned) + p[..n]
      ensures err.Some? ==> n == 0
      ensures err.None? && p.Length > 0 && (arrival.Payload? ==> arrival.data != []) ==> n > 0
      ensures n < p.Length ==> unread == None
    {
      if unread.None? {
        match arrival {
          case Closed => return 0, Some(Eof);
          case Payload(data) =>
            unread := Some(data);
            taken := taken + data;
        }
      }
      var source := unread.value;
      n := if |source| <= p.Length then |source| else p.Length;
      assert returned + source == taken;
      forall i | 0 <= i < n { p[i] := source[i]; }
      if n < |source| {
        unread := Some(source[n..]);
      } else {
        unread := None;
      }
      assert p[..n] == source[..n] && source == source[..n] + source[n..];
      returned := returned + p[..n];
      err := None;
    }

    method ReadData(arrival: Arrival) returns (data: seq<byte>, err: Option<Error>)
      requires Valid()
      modifies this
      ensures Valid() && unread == old(unread)
      ensures State() == Answer(old(State()), Call.ReadData(arrival))
      ensures taken == old(taken) + Received(old(State()), Call.ReadData(arrival))
      ensures err == if unread.Some? then Some(UnreadPartialData)
                     else if arrival.Closed? then Some(Eof) else None
      ensures returned == old(returned) + data
    {
      if unread.Some? { return [], Some(UnreadPartialData); }
      match arrival {
        case Closed => return [], Some(Eof);
        case Payload(payload) =>
          taken := taken + payload;
          returned := returned + payload;
          return payload, None;
      }
    }
  }

  // -------------------------------------------------------------------------
  // Whole sequences of calls

  function Answers(calls: seq<Call>): Outcome {
    if calls == [] then Outcome([], None) else Answer(Answers(calls[..|calls| - 1]), calls[|calls| - 1])
  }

  /** The payloads taken from dataChan, in a row. */
  function Taken(calls: seq<Call>): seq<byte> {
    if calls == [] then []
    else Taken(calls[..|calls| - 1]) + Received(Answers(calls[..|calls| - 1]), calls[|calls| - 1])
  }

  lemma AnswerConserves(o: Outcome, call: Call)
    requires o.unread.Some? ==> o.unread.value != []
    ensures var r := Answer(o, call);
            && r.returned + Bytes(r.unread) == o.returned + Bytes(o.unread) + Received(o, call)
            && (r.unread.Some? ==> r.unread.value != [])
  {
    if call.Read? {
      var source := Source(o.unread, call.arrival);
      if source.Some? { Chunk(source.value, call.room); }
    }
  }

  /** Conservation, for every mix of Read and ReadData with every choice of buffer sizes. */
  lemma {:induction false} ChunkingConserves(calls: seq<Call>)
    ensures var o := Answers(calls);
            && o.returned + Bytes(o.unread) == Taken(calls)
            && (o.unread.Some? ==> o.unread.value != [])
  {
    if calls != [] {
      ChunkingConserves(calls[..|calls| - 1]);
      AnswerConserves(Answers(calls[..|calls| - 1]), calls[|calls| - 1]);
    }
  }
}
