/** Reading frames: spdy/read.go without compression. */
module FrameReader {
  import opened Options
  import opened Bytes
  import opened Frames
  import opened HeaderBlock

  const DEFAULT_MAX_HEADERS: uint32 := 1000
  const DEFAULT_MAX_FIELD: uint32 := 0x10_0000

  /** The limits of a Framer; 0 stands for the default. */
  datatype Limits = Limits(maxFrameLength: uint32, maxHeaderFieldSize: uint32, maxHeaderCount: uint32) {
    function MaxPayload(): uint32 { if maxFrameLength > 0 then maxFrameLength else MAX_DATA_LENGTH }
    function MaxField(): uint32 { if maxHeaderFieldSize > 0 then maxHeaderFieldSize else DEFAULT_MAX_FIELD }
    function MaxHeaders(): uint32 { if maxHeaderCount > 0 then maxHeaderCount else DEFAULT_MAX_HEADERS }
  }

  /** The bytes of an ASCII string. */
  function BytesOf(s: string): Name {
    seq(|s|, i requires 0 <= i < |s| => if s[i] as int < 0x80 then s[i] as int else 0)
  }

  /** invalidRespHeaders, and with Host invalidReqHeaders. */
  function InvalidInReply(): set<Name> {
    {BytesOf("Connection"), BytesOf("Keep-Alive"), BytesOf("Proxy-Connection"), BytesOf("Transfer-Encoding")}
  }

  function InvalidInRequest(): set<Name> { InvalidInReply() + {BytesOf("Host")} }

  // -------------------------------------------------------------------------
  // The read methods of the frames

  /** The header block behind the fields of a frame, and the checks behind it. */
  function ParseHeaders(s: seq<byte>, id: uint32, invalid: set<Name>, limits: Limits): Parsed<Headers> {
    var (headers, rest) :- ParseBlock(s, limits.MaxHeaders(), limits.MaxField(), id);
    if headers.Keys !! invalid then (if id == 0 then Failed(ZeroStreamId, rest) else Got(headers, rest))
    else Failed(InvalidHeaderPresent(id), rest)
  }

  /** The ids, the priority and the slot in front of the header block of a SYN_STREAM. */
  datatype SynFields = SynFields(id: uint32, associated: uint32, priority: byte, slot: byte)

  function ParseSynFields(s: seq<byte>): Parsed<SynFields> {
    var (id, s1) :- Take32(s);
    var (associated, s2) :- Take32(s1);
    var (priority, s3) :- Take8(s2);
    var (slot, rest) :- Take8(s3);
    Got(SynFields(id, associated, priority / 32, slot), rest)
  }

  function ParseSynStream(s: seq<byte>, limits: Limits): Parsed<Body> {
    var (f, s1) :- ParseSynFields(s);
    var (headers, rest) :- ParseHeaders(s1, f.id, InvalidInRequest(), limits);
    Got(SynStream(f.id, f.associated, f.priority, f.slot, headers), rest)
  }

  function ParseSynReply(s: seq<byte>, limits: Limits): Parsed<Body> {
    var (id, s1) :- Take32(s);
    var (headers, rest) :- ParseHeaders(s1, id, InvalidInReply(), limits);
    Got(SynReply(id, headers), rest)
  }

  function ParseMoreHeaders(s: seq<byte>, limits: Limits): Parsed<Body> {
    var (id, s1) :- Take32(s);
    var (headers, rest) :- ParseHeaders(s1, id, if id % 2 == 0 then InvalidInRequest() else InvalidInReply(), limits);
    Got(MoreHeaders(id, headers), rest)
  }

  function ParseRstStream(s: seq<byte>): Parsed<Body> {
    var (id, s1) :- Take32(s);
    var (status, s2) :- Take32(s1);
    if status == 0 then Failed(InvalidControlFrame(id), s2)
    else if id == 0 then Failed(ZeroStreamId, s2)
    else Got(RstStream(id, status), s2)
  }

  function ParseSetting(s: seq<byte>): Parsed<Setting> {
    var (word, s1) :- Take32(s);
    var (value, s2) :- Take32(s1);
    Got(Setting(word / TWO_24, word % TWO_24, value), s2)
  }

  function ParseSettingList(s: seq<byte>, n: nat): Parsed<seq<Setting>> {
    if n == 0 then Got([], s)
    else
      var (settings, s1) :- ParseSettingList(s, n - 1);
      var (setting, s2) :- ParseSetting(s1);
      Got(settings + [setting], s2)
  }

  function ParseSettings(h: Header, s: seq<byte>): Parsed<Body> {
    var (n, s1) :- Take32(s);
    if h.length < 4 || n > (h.length - 4) / 8 then Failed(InvalidControlFrame(0), s1)
    else
      var (settings, rest) :- ParseSettingList(s1, n);
      Got(Settings(settings), rest)
  }

  function ParsePing(h: Header, s: seq<byte>): Parsed<Body> {
    var (id, s1) :- Take32(s);
    if id == 0 then Failed(ZeroStreamId, s1)
    else if h.flags != 0 then Failed(InvalidControlFrame(id), s1)
    else Got(Ping(id), s1)
  }

  /** GOAWAY and WINDOW_UPDATE: two words, with the checks between them. */
  function ParseWords(h: Header, s: seq<byte>): Parsed<(uint32, uint32)> {
    var (first, s1) :- Take32(s);
    if h.flags != 0 || h.length != 8 then Failed(InvalidControlFrame(first), s1)
    else
      var (second, s2) :- Take32(s1);
      Got((first, second), s2)
  }

  function ParseGoAway(h: Header, s: seq<byte>): Parsed<Body> {
    var (words, rest) :- ParseWords(h, s);
    Got(GoAway(words.0, words.1), rest)
  }

  function ParseWindowUpdate(h: Header, s: seq<byte>): Parsed<Body> {
    var (words, rest) :- ParseWords(h, s);
    Got(WindowUpdate(words.0, words.1), rest)
  }

  /** newControlFrame and the read method of the frame. */
  function ParseBody(h: Header, s: seq<byte>, limits: Limits): Parsed<Body> {
    if h.frameType == TYPE_SYN_STREAM then ParseSynStream(s, limits)
    else if h.frameType == TYPE_SYN_REPLY then ParseSynReply(s, limits)
    else if h.frameType == TYPE_RST_STREAM then ParseRstStream(s)
    else if h.frameType == TYPE_SETTINGS then ParseSettings(h, s)
    else if h.frameType == TYPE_PING then ParsePing(h, s)
    else if h.frameType == TYPE_GO_AWAY then ParseGoAway(h, s)
    else if h.frameType == TYPE_HEADERS then ParseMoreHeaders(s, limits)
    else if h.frameType == TYPE_WINDOW_UPDATE then ParseWindowUpdate(h, s)
    else Failed(InvalidControlFrame(0), s)
  }

  /** io.CopyN to nowhere. */
  function Discard(s: seq<byte>, n: nat): Parsed<()> {
    if n <= |s| then Got((), s[n..]) else Failed(Eof, [])
  }

  function ParseControlFrame(version: uint16, frameType: uint16, s: seq<byte>, limits: Limits): Parsed<Frame> {
    var (word, s1) :- Take32(s);
    var length := word % TWO_24;
    if length > limits.MaxPayload() then
      var (_, s2) :- Discard(s1, length);
      Failed(InvalidControlFrame(0), s2)
    else
      var h := Header(version, frameType, word / TWO_24, length);
      var (body, rest) :- ParseBody(h, s1, limits);
      Got(Control(h, body), rest)
  }

  function ParseDataFrame(id: uint32, s: seq<byte>): Parsed<Frame> {
    var (word, s1) :- Take32(s);
    var (data, rest) :- TakeBytes(s1, word % TWO_24);
    if id == 0 then Failed(ZeroStreamId, rest) else Got(Data(id, word / TWO_24, data), rest)
  }

  /** ReadFrame. */
  function ParseFrame(s: seq<byte>, limits: Limits): Parsed<Frame> {
    var (word, s1) :- Take32(s);
    if word >= 0x8000_0000 then ParseControlFrame(word / 0x1_0000 % 0x8000, word % 0x1_0000, s1, limits)
    else ParseDataFrame(word, s1)
  }

  // -------------------------------------------------------------------------
  // The reader itself

  /** What is left to read behind a value or an error. */
  function Left<T>(p: Parsed<T>): seq<byte> {
    match p
    case Got(_, rest) => rest
    case Failed(_, left) => left
  }

  class Reader {
    const limits: Limits
    var input: seq<byte>     // the bytes of the connection not read so far

    constructor (limits: Limits, input: seq<byte>)
      ensures this.limits == limits && this.input == input
    {
      this.limits, this.input := limits, input;
    }

    method Read32() returns (p: Parsed<uint32>)
      modifies this`input
      ensures p == Take32(old(input)) && input == Left(p)
    {
      p := Take32(input);
      input := Left(p);
    }

    method Read8() returns (p: Parsed<byte>)
      modifies this`input
      ensures p == Take8(old(input)) && input == Left(p)
    {
      p := Take8(input);
      input := Left(p);
    }

    method ReadFull(n: nat) returns (p: Parsed<seq<byte>>)
      modifies this`input
      ensures p == TakeBytes(old(input), n) && input == Left(p)
    {
      p := TakeBytes(input, n);
      input := Left(p);
    }

    /** A length, checked against the limit, and as many bytes. */
    method ReadField(id: uint32) returns (p: Parsed<seq<byte>>)
      modifies this`input
      ensures p == ParseField(old(input), limits.MaxField(), id) && input == Left(p)
    {
      var length := Read32();
      if length.Failed? { return length.PropagateFailure(); }
      if length.value > limits.MaxField() { return Failed(InvalidControlFrame(id), input); }
      p := ReadFull(length.value);
    }

    method ReadHeaderValueBlock(id: uint32) returns (p: Parsed<Headers>)
      modifies this`input
      ensures p == ParseBlock(old(input), limits.MaxHeaders(), limits.MaxField(), id) && input == Left(p)
    {
      var count := Read32();
      if count.Failed? { return count.PropagateFailure(); }
      if count.value > limits.MaxHeaders() { return Failed(InvalidControlFrame(id), input); }
      p := ReadEntries(count.value, id);
    }

    /** The loop over the entries. */
    method ReadEntries(n: nat, id: uint32) returns (p: Parsed<Headers>)
      modifies this`input
      ensures p == ParseMap(old(input), n, limits.MaxField(), id) && input == Left(p)
    {
      ghost var start := input;
      var h: Headers := map[];
      var e: Option<Error> := None;
      ghost var entries: seq<(seq<byte>, seq<byte>)> := [];
      hide ParseField, Lower, Split, AddAll;
      for i := 0 to n
        invariant ParseEntries(start, i, limits.MaxField(), id) == Got(entries, input)
        invariant h == Collect(entries) && e == LastError(entries, id)
      {
        ghost var before := input;
        var raw := ReadField(id);
        if raw.Failed? {
          EntriesFail(start, i, n, entries, before, limits.MaxField(), id);
          return raw.PropagateFailure();
        }
        var name := Lower(raw.value);
        if raw.value != name { e := Some(UnlowercasedHeaderName(id)); }
        if name in h { e := Some(DuplicateHeaders(id)); }
        var value := ReadField(id);
        if value.Failed? {
          EntriesFail(start, i, n, entries, before, limits.MaxField(), id);
          return value.PropagateFailure();
        }
        h := AddAll(h, name, Split(value.value));
        CollectNext(entries, raw.value, value.value, id);
        ParseNext(start, i, entries, before, (raw.value, value.value), input, limits.MaxField(), id);
        entries := entries + [(raw.value, value.value)];
      }
      p := if e.Some? then Failed(e.value, input) else Got(h, input);
    }

    method ReadHeaders(id: uint32, invalid: set<Name>) returns (p: Parsed<Headers>)
      modifies this`input
      ensures p == ParseHeaders(old(input), id, invalid, limits) && input == Left(p)
    {
      p := ReadHeaderValueBlock(id);
      if p.Got? {
        if !(p.value.Keys !! invalid) { return Failed(InvalidHeaderPresent(id), input); }
        if id == 0 { return Failed(ZeroStreamId, input); }
      }
    }

    method ReadSynFields() returns (p: Parsed<SynFields>)
      modifies this`input
      ensures p == ParseSynFields(old(input)) && input == Left(p)
    {
      var id := Read32();
      if id.Failed? { return id.PropagateFailure(); }
      var associated := Read32();
      if associated.Failed? { return associated.PropagateFailure(); }
      var priority := Read8();
      if priority.Failed? { return priority.PropagateFailure(); }
      var slot := Read8();
      if slot.Failed? { return slot.PropagateFailure(); }
      p := Got(SynFields(id.value, associated.value, priority.value / 32, slot.value), input);
    }

    method ReadSynStream() returns (p: Parsed<Body>)
      modifies this`input
      ensures p == ParseSynStream(old(input), limits) && input == Left(p)
    {
      var f := ReadSynFields();
      if f.Failed? { return f.PropagateFailure(); }
      var headers := ReadHeaders(f.value.id, InvalidInRequest());
      if headers.Failed? { return headers.PropagateFailure(); }
      p := Got(SynStream(f.value.id, f.value.associated, f.value.priority, f.value.slot, headers.value), input);
    }

    method ReadSynReply() returns (p: Parsed<Body>)
      modifies this`input
      ensures p == ParseSynReply(old(input), limits) && input == Left(p)
    {
      var id := Read32();
      if id.Failed? { return id.PropagateFailure(); }
      var headers := ReadHeaders(id.value, InvalidInReply());
      if headers.Failed? { return headers.PropagateFailure(); }
      p := Got(SynReply(id.value, headers.value), input);
    }

    method ReadMoreHeaders() returns (p: Parsed<Body>)
      modifies this`input
      ensures p == ParseMoreHeaders(old(input), limits) && input == Left(p)
    {
      var id := Read32();
      if id.Failed? { return id.PropagateFailure(); }
      var invalid := if id.value % 2 == 0 then InvalidInRequest() else InvalidInReply();
      var headers := ReadHeaders(id.value, invalid);
      if headers.Failed? { return headers.PropagateFailure(); }
      p := Got(MoreHeaders(id.value, headers.value), input);
    }

    method ReadRstStream() returns (p: Parsed<Body>)
      modifies this`input
      ensures p == ParseRstStream(old(input)) && input == Left(p)
    {
      var id := Read32();
      if id.Failed? { return id.PropagateFailure(); }
      var status := Read32();
      if status.Failed? { return status.PropagateFailure(); }
      if status.value == 0 { return Failed(InvalidControlFrame(id.value), input); }
      if id.value == 0 { return Failed(ZeroStreamId, input); }
      p := Got(RstStream(id.value, status.value), input);
    }

    method ReadSettings(h: Header) returns (p: Parsed<Body>)
      modifies this`input
      ensures p == ParseSettings(h, old(input)) && input == Left(p)
    {
      var count := Read32();
      if count.Failed? { return count.PropagateFailure(); }
      if h.length < 4 || count.value > (h.length - 4) / 8 { return Failed(InvalidControlFrame(0), input); }
      var settings := ReadSettingList(count.value);
      if settings.Failed? { return settings.PropagateFailure(); }
      p := Got(Settings(settings.value), input);
    }

    /** The loop over the settings. */
    method ReadSettingList(n: nat) returns (p: Parsed<seq<Setting>>)
      modifies this`input
      ensures p == ParseSettingList(old(input), n) && input == Left(p)
    {
      ghost var start := input;
      var settings: seq<Setting> := [];
      assert ParseSettingList(start, 0) == Got(settings, input);
      hide ParseSettingList;
      for i := 0 to n
        invariant ParseSettingList(start, i) == Got(settings, input)
      {
        ghost var before := input;
        var word := Read32();
        if word.Failed? {
          SettingListFails(start, i, n, settings, before);
          return word.PropagateFailure();
        }
        var value := Read32();
        if value.Failed? {
          SettingListFails(start, i, n, settings, before);
          return value.PropagateFailure();
        }
        var setting := Setting(word.value / TWO_24, word.value % TWO_24, value.value);
        assert ParseSetting(before) == Got(setting, input);
        hide ParseSetting, Take32;
        SettingListNext(start, i, settings, before, setting, input);
        settings := settings + [setting];
      }
      p := Got(settings, input);
    }

    method ReadPing(h: Header) returns (p: Parsed<Body>)
      modifies this`input
      ensures p == ParsePing(h, old(input)) && input == Left(p)
    {
      var id := Read32();
      if id.Failed? { return id.PropagateFailure(); }
      if id.value == 0 { return Failed(ZeroStreamId, input); }
      if h.flags != 0 { return Failed(InvalidControlFrame(id.value), input); }
      p := Got(Ping(id.value), input);
    }

    /** The read methods of GOAWAY and WINDOW_UPDATE. */
    method ReadWords(h: Header) returns (p: Parsed<(uint32, uint32)>)
      modifies this`input
      ensures p == ParseWords(h, old(input)) && input == Left(p)
    {
      var first := Read32();
      if first.Failed? { return first.PropagateFailure(); }
      if h.flags != 0 { return Failed(InvalidControlFrame(first.value), input); }
      if h.length != 8 { return Failed(InvalidControlFrame(first.value), input); }
      var second := Read32();
      if second.Failed? { return second.PropagateFailure(); }
      p := Got((first.value, second.value), input);
    }

    method ReadBody(h: Header) returns (p: Parsed<Body>)
      modifies this`input
      ensures p == ParseBody(h, old(input), limits) && input == Left(p)
    {
      if h.frameType == TYPE_SYN_STREAM {
        p := ReadSynStream();
      } else if h.frameType == TYPE_SYN_REPLY {
        p := ReadSynReply();
      } else if h.frameType == TYPE_RST_STREAM {
        p := ReadRstStream();
      } else if h.frameType == TYPE_SETTINGS {
        p := ReadSettings(h);
      } else if h.frameType == TYPE_PING {
        p := ReadPing(h);
      } else if h.frameType == TYPE_GO_AWAY {
        var words := ReadWords(h);
        if words.Failed? { return words.PropagateFailure(); }
        p := Got(GoAway(words.value.0, words.value.1), input);
      } else if h.frameType == TYPE_HEADERS {
        p := ReadMoreHeaders();
      } else if h.frameType == TYPE_WINDOW_UPDATE {
        var words := ReadWords(h);
        if words.Failed? { return words.PropagateFailure(); }
        p := Got(WindowUpdate(words.value.0, words.value.1), input);
      } else {
        p := Failed(InvalidControlFrame(0), input);
      }
    }

    method ReadControlFrame(version: uint16, frameType: uint16) returns (p: Parsed<Frame>)
      modifies this`input
      ensures p == ParseControlFrame(version, frameType, old(input), limits) && input == Left(p)
    {
      var word := Read32();
      if word.Failed? { return word.PropagateFailure(); }
      var length := word.value % TWO_24;
      if length > limits.MaxPayload() {
        var skipped := Discard(input, length);
        input := Left(skipped);
        if skipped.Failed? { return skipped.PropagateFailure(); }
        return Failed(InvalidControlFrame(0), input);
      }
      var h := Header(version, frameType, word.value / TWO_24, length);
      var body := ReadBody(h);
      if body.Failed? { return body.PropagateFailure(); }
      p := Got(Control(h, body.value), input);
    }

    method ReadDataFrame(id: uint32) returns (p: Parsed<Frame>)
      modifies this`input
      ensures p == ParseDataFrame(id, old(input)) && input == Left(p)
    {
      var word := Read32();
      if word.Failed? { return word.PropagateFailure(); }
      var data := ReadFull(word.value % TWO_24);
      if data.Failed? { return data.PropagateFailure(); }
      if id == 0 { return Failed(ZeroStreamId, input); }
      p := Got(Data(id, word.value / TWO_24, data.value), input);
    }

    method ReadFrame() returns (p: Parsed<Frame>)
      modifies this`input
      ensures p == ParseFrame(old(input), limits) && input == Left(p)
    {
      var word := Read32();
      if word.Failed? { return word.PropagateFailure(); }
      if word.value >= 0x8000_0000 {
        p := ReadControlFrame(word.value / 0x1_0000 % 0x8000, word.value % 0x1_0000);
      } else {
        p := ReadDataFrame(word.value);
      }
    }
  }

  // -------------------------------------------------------------------------
  // A failed entry or setting fails the whole list

  lemma {:induction false} EntriesFail(s: seq<byte>, i: nat, n: nat, entries: seq<(seq<byte>, seq<byte>)>,
                                       s1: seq<byte>, maxField: uint32, id: uint32)
    requires i < n && ParseEntries(s, i, maxField, id) == Got(entries, s1)
    requires ParseEntry(s1, maxField, id).Failed?
    ensures ParseEntries(s, n, maxField, id) == ParseEntry(s1, maxField, id).PropagateFailure()
    decreases n
  {
    hide ParseEntry;
    if n > i + 1 { EntriesFail(s, i, n - 1, entries, s1, maxField, id); }
  }

  lemma {:induction false} SettingListFails(s: seq<byte>, i: nat, n: nat, settings: seq<Setting>, s1: seq<byte>)
    requires i < n && ParseSettingList(s, i) == Got(settings, s1)
    requires ParseSetting(s1).Failed?
    ensures ParseSettingList(s, n) == ParseSetting(s1).PropagateFailure()
    decreases n
  {
    hide ParseSetting;
    if n > i + 1 { SettingListFails(s, i, n - 1, settings, s1); }
  }

  lemma SettingListNext(s: seq<byte>, n: nat, settings: seq<Setting>, s1: seq<byte>, setting: Setting, s2: seq<byte>)
    requires ParseSettingList(s, n) == Got(settings, s1) && ParseSetting(s1) == Got(setting, s2)
    ensures ParseSettingList(s, n + 1) == Got(settings + [setting], s2)
  {
    hide ParseSetting;
  }
}
