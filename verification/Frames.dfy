/** The frames of spdy/types.go and the ways in which reading or writing them can fail. */
module Frames {
  import opened Bytes

  const VERSION: uint16 := 3

  const TYPE_SYN_STREAM: uint16 := 1
  const TYPE_SYN_REPLY: uint16 := 2
  const TYPE_RST_STREAM: uint16 := 3
  const TYPE_SETTINGS: uint16 := 4
  const TYPE_PING: uint16 := 6
  const TYPE_GO_AWAY: uint16 := 7
  const TYPE_HEADERS: uint16 := 8
  const TYPE_WINDOW_UPDATE: uint16 := 9

  const MAX_DATA_LENGTH := 0xff_ffff
  const MAX_INT_32 := 0x7fff_ffff

  type Name = seq<byte>
  type Values = seq<seq<byte>>
  type Headers = map<Name, Values>

  datatype Setting = Setting(flag: byte, id: uint32, value: uint32)

  /** ControlFrameHeader. */
  datatype Header = Header(version: uint16, frameType: uint16, flags: byte, length: uint32)

  /** The payload of a control frame. */
  datatype Body =
    | SynStream(streamId: uint32, associated: uint32, priority: byte, slot: byte, headers: Headers)
    | SynReply(streamId: uint32, headers: Headers)
    | RstStream(streamId: uint32, status: uint32)
    | Settings(settings: seq<Setting>)
    | Ping(id: uint32)
    | GoAway(lastGood: uint32, status: uint32)
    | MoreHeaders(streamId: uint32, headers: Headers)
    | WindowUpdate(streamId: uint32, delta: uint32)
  {
    predicate HasHeaders() { SynStream? || SynReply? || MoreHeaders? }
  }

  datatype Frame = Control(header: Header, body: Body) | Data(streamId: uint32, flags: byte, data: seq<byte>)

  datatype Error =
    | Eof | UnexpectedEof
    | InvalidControlFrame(id: uint32)
    | ZeroStreamId
    | InvalidDataFrame(id: uint32)
    | InvalidHeaderPresent(id: uint32)
    | UnlowercasedHeaderName(id: uint32)
    | DuplicateHeaders(id: uint32)

  /** Two frames differ at most in their control frame headers. */
  predicate SamePayload(f: Frame, g: Frame) {
    if f.Control? then g.Control? && g.body == f.body else f == g
  }

  // -------------------------------------------------------------------------
  // Results of reading

  /** A value and what is left to read, or an error and what is left after it. */
  datatype Parsed<+T> = Got(value: T, rest: seq<byte>) | Failed(error: Error, left: seq<byte>) {
    predicate IsFailure() { Failed? }

    function PropagateFailure<U>(): Parsed<U>
      requires Failed?
    {
      Failed(error, left)
    }

    function Extract(): (T, seq<byte>)
      requires Got?
    {
      (value, rest)
    }
  }

  /** io.ReadFull of n bytes: a short read uses up what there is. */
  function TakeBytes(s: seq<byte>, n: nat): (r: Parsed<seq<byte>>)
    ensures r.Got? ==> r.value + r.rest == s && |r.value| == n
  {
    if n <= |s| then Got(s[..n], s[n..]) else Failed(if s == [] then Eof else UnexpectedEof, [])
  }

  /** binary.Read of a uint32. */
  function Take32(s: seq<byte>): (r: Parsed<uint32>)
    ensures r.Got? ==> Be32(r.value) + r.rest == s
  {
    if |s| < 4 then Failed(if s == [] then Eof else UnexpectedEof, [])
    else
      Be32Value(s[..4]);
      assert s == s[..4] + s[4..];
      Got(Value32(s[..4]), s[4..])
  }

  function Take8(s: seq<byte>): (r: Parsed<byte>)
    ensures r.Got? ==> [r.value] + r.rest == s
  {
    if s == [] then Failed(Eof, []) else Got(s[0], s[1..])
  }

  lemma Take32Of(x: uint32, rest: seq<byte>)
    ensures Take32(Be32(x) + rest) == Got(x, rest)
  {
    Value32Be(x);
    assert (Be32(x) + rest)[..4] == Be32(x);
  }

  lemma TakeBytesOf(s: seq<byte>, rest: seq<byte>)
    ensures TakeBytes(s + rest, |s|) == Got(s, rest)
  {}
}
