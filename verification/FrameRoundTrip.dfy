/** What writing and reading frames have to do with each other. */
module FrameRoundTrip {
  import opened Options
  import opened Bytes
  import opened Frames
  import opened HeaderBlock
  import W = FrameWriter
  import R = FrameReader

  // -------------------------------------------------------------------------
  // Frames that survive the wire

  /** The header names that the reader refuses in a frame. */
  function Refused(b: Body): set<Name>
    requires b.HasHeaders()
  {
    if b.SynStream? || (b.MoreHeaders? && b.streamId % 2 == 0) then R.InvalidInRequest() else R.InvalidInReply()
  }

  ghost predicate HeadersWellFormed(b: Body, order: seq<Name>, limits: R.Limits)
    requires b.HasHeaders()
  {
    && b.streamId != 0
    && IsOrder(order, b.headers) && Stable(b.headers)
    && Fits(b.headers, limits.MaxHeaders(), limits.MaxField())
    && b.headers.Keys !! Refused(b)
    && LengthFits(|W.Fields(b)| + |EmitBlock(b.headers, order).bytes|, limits)
  }

  predicate LengthFits(length: nat, limits: R.Limits) {
    length <= MAX_DATA_LENGTH && length <= limits.MaxPayload()
  }

  /** Within what the fields of the wire can hold and the limits of the reader. */
  ghost predicate WellFormed(f: Frame, order: seq<Name>, limits: R.Limits) {
    match f
    case Data(id, _, data) => 0 < id < 0x8000_0000 && |data| <= MAX_DATA_LENGTH
    case Control(_, b) =>
      (match b
       case SynStream(_, _, priority, _, _) => priority <= 7 && HeadersWellFormed(b, order, limits)
       case SynReply(_, _) => HeadersWellFormed(b, order, limits)
       case MoreHeaders(_, _) => HeadersWellFormed(b, order, limits)
       case RstStream(id, status) => id != 0 && status != 0 && LengthFits(8, limits)
       case Settings(settings) =>
         LengthFits(4 + 8 * |settings|, limits) && forall x | x in settings :: x.id < TWO_24
       case Ping(id) => id != 0 && LengthFits(4, limits)
       case GoAway(_, _) => LengthFits(8, limits)
       case WindowUpdate(_, _) => LengthFits(8, limits))
  }

  // -------------------------------------------------------------------------
  // The header of a control frame

  lemma Be32OfHalves(high: uint16, low: uint16)
    ensures Be16(high) + Be16(low) == Be32(high * 0x1_0000 + low)
  {}

  lemma HeaderWords(h: Header, payload: seq<byte>)
    requires h.version < 0x8000 && h.length < TWO_24
    ensures W.ControlHeader(h) + payload
              == Be32((0x8000 + h.version) * 0x1_0000 + h.frameType) + (Be32(h.flags * TWO_24 + h.length) + payload)
  {
    Be32OfHalves(0x8000 + h.version, h.frameType);
    W.FlagsAndLow(h.flags, h.length);
    hide Be32, W.FlagsAnd, Be16;
  }

  /** Behind a control frame header, reading goes on with the body. */
  lemma ReadHeader(h: Header, payload: seq<byte>, limits: R.Limits)
    requires h.version < 0x8000 && h.length < TWO_24 && h.length <= limits.MaxPayload()
    requires R.ParseBody(h, payload, limits).Got?
    ensures var p := R.ParseBody(h, payload, limits);
            R.ParseFrame(W.ControlHeader(h) + payload, limits) == Got(Control(h, p.value), p.rest)
  {
    hide R.ParseBody, Take32, Be32, W.ControlHeader;
    HeaderWords(h, payload);
    WordParts(h);
    var word: uint32 := (0x8000 + h.version) * 0x1_0000 + h.frameType;
    var lengthWord: uint32 := h.flags * TWO_24 + h.length;
    Take32Of(word, Be32(lengthWord) + payload);
    Take32Of(lengthWord, payload);
  }

  lemma WordParts(h: Header)
    requires h.version < 0x8000 && h.length < TWO_24
    ensures var word := (0x8000 + h.version) * 0x1_0000 + h.frameType;
            word >= 0x8000_0000 && word / 0x1_0000 % 0x8000 == h.version && word % 0x1_0000 == h.frameType
    ensures var word := h.flags * TWO_24 + h.length;
            word / TWO_24 == h.flags && word % TWO_24 == h.length
  {}

  // -------------------------------------------------------------------------
  // Bodies without headers

  lemma TwoWords(a: uint32, b: uint32, rest: seq<byte>)
    ensures Take32(Be32(a) + Be32(b) + rest) == Got(a, Be32(b) + rest)
    ensures Take32(Be32(b) + rest) == Got(b, rest)
  {
    assert Be32(a) + Be32(b) + rest == Be32(a) + (Be32(b) + rest);
    Take32Of(a, Be32(b) + rest);
    Take32Of(b, rest);
  }

  lemma ReadSetting(x: Setting, rest: seq<byte>)
    requires x.id < TWO_24
    ensures R.ParseSetting(Be32(W.FlagsAnd(x.flag, x.id)) + Be32(x.value) + rest) == Got(x, rest)
  {
    W.FlagsAndLow(x.flag, x.id);
    TwoWords(W.FlagsAnd(x.flag, x.id), x.value, rest);
  }

  lemma {:induction false} ReadSettingList(settings: seq<Setting>, rest: seq<byte>)
    requires forall x | x in settings :: x.id < TWO_24
    ensures R.ParseSettingList(W.SettingsBytes(settings) + rest, |settings|) == Got(settings, rest)
  {
    if settings == [] {
      assert [] + rest == rest;
    } else {
      var before, last := settings[..|settings| - 1], settings[|settings| - 1];
      var done, word, value := W.SettingsBytes(before), Be32(W.FlagsAnd(last.flag, last.id)), Be32(last.value);
      assert last in settings && settings == before + [last];
      assert done + (word + value) + rest == done + (word + value + rest);
      ReadSettingList(before, word + value + rest);
      ReadSetting(last, rest);
      hide R.ParseSetting;
    }
  }

  /** Reading the fields of a well-formed body without headers gives the body back. */
  lemma ReadPlain(h: Header, b: Body, rest: seq<byte>, limits: R.Limits)
    requires !b.HasHeaders() && WellFormed(Control(h, b), [], limits)
    requires h.frameType == W.TypeOf(b) && (h.flags == 0 || b.Settings?)
    requires h.length == |W.Fields(b)|
    ensures R.ParseBody(h, W.Fields(b) + rest, limits) == Got(b, rest)
  {
    match b {
      case RstStream(id, status) => TwoWords(id, status, rest);
      case Settings(settings) => ReadSettings(h, settings, rest, limits);
      case Ping(id) => Take32Of(id, rest);
      case GoAway(lastGood, status) => TwoWords(lastGood, status, rest);
      case WindowUpdate(id, delta) => TwoWords(id, delta, rest);
    }
  }

  lemma ReadSettings(h: Header, settings: seq<Setting>, rest: seq<byte>, limits: R.Limits)
    requires h.length == 4 + 8 * |settings| <= MAX_DATA_LENGTH && forall x | x in settings :: x.id < TWO_24
    ensures R.ParseSettings(h, W.Fields(Settings(settings)) + rest) == Got(Settings(settings), rest)
  {
    hide R.ParseSettingList, W.SettingsBytes, Take32, Be32, W.Fields;
    W.SettingsFields(settings);
    Associate(Be32(|settings|), W.SettingsBytes(settings), rest);
    Take32Of(|settings|, W.SettingsBytes(settings) + rest);
    ReadSettingList(settings, rest);
  }

  // -------------------------------------------------------------------------
  // Bodies with headers

  lemma ReadHeaders(b: Body, order: seq<Name>, rest: seq<byte>, limits: R.Limits)
    requires b.HasHeaders() && HeadersWellFormed(b, order, limits)
    ensures R.ParseHeaders(EmitBlock(b.headers, order).bytes + rest, b.streamId, Refused(b), limits)
              == Got(b.headers, rest)
  {
    StableRoundTrip(b.headers, order, rest, limits.MaxHeaders(), limits.MaxField(), b.streamId);
  }

  lemma ReadWithHeaders(h: Header, b: Body, order: seq<Name>, rest: seq<byte>, limits: R.Limits)
    requires b.HasHeaders() && HeadersWellFormed(b, order, limits) && (b.SynStream? ==> b.priority <= 7)
    requires h.frameType == W.TypeOf(b)
    ensures R.ParseBody(h, W.Fields(b) + EmitBlock(b.headers, order).bytes + rest, limits) == Got(b, rest)
  {
    ReadHeaders(b, order, rest, limits);
    hide EmitBlock, HeadersWellFormed, W.Fields, R.ParseHeaders, R.ParseBody, W.TypeOf;
    var block := EmitBlock(b.headers, order).bytes + rest;
    assert W.Fields(b) + EmitBlock(b.headers, order).bytes + rest == W.Fields(b) + block;
    ReadFields(h, b, block, limits);
  }

  /** The read method of the frame type, given what its header block parses to. */
  lemma ReadFields(h: Header, b: Body, block: seq<byte>, limits: R.Limits)
    requires b.HasHeaders() && (b.SynStream? ==> b.priority <= 7) && h.frameType == W.TypeOf(b)
    requires var p := R.ParseHeaders(block, b.streamId, Refused(b), limits); p.Got? && p.value == b.headers
    ensures R.ParseBody(h, W.Fields(b) + block, limits)
              == Got(b, R.ParseHeaders(block, b.streamId, Refused(b), limits).rest)
  {
    hide R.ParseSynStream, R.ParseSynReply, R.ParseMoreHeaders, R.ParseHeaders, W.Fields;
    hide R.InvalidInRequest, R.InvalidInReply;
    if b.SynStream? {
      ReadSynStreamFields(b, block, limits);
    } else if b.SynReply? {
      ReadReplyFields(b, block, limits);
    } else {
      ReadMoreFields(b, block, limits);
    }
  }

  lemma ReadReplyFields(b: Body, block: seq<byte>, limits: R.Limits)
    requires b.SynReply?
    requires var p := R.ParseHeaders(block, b.streamId, R.InvalidInReply(), limits); p.Got? && p.value == b.headers
    ensures R.ParseSynReply(W.Fields(b) + block, limits)
              == Got(b, R.ParseHeaders(block, b.streamId, R.InvalidInReply(), limits).rest)
  {
    hide R.ParseHeaders, Take32, Be32, R.InvalidInReply;
    Take32Of(b.streamId, block);
  }

  lemma ReadMoreFields(b: Body, block: seq<byte>, limits: R.Limits)
    requires b.MoreHeaders?
    requires var p := R.ParseHeaders(block, b.streamId, Refused(b), limits); p.Got? && p.value == b.headers
    ensures R.ParseMoreHeaders(W.Fields(b) + block, limits)
              == Got(b, R.ParseHeaders(block, b.streamId, Refused(b), limits).rest)
  {
    hide R.ParseHeaders, Take32, Be32, R.InvalidInReply, R.InvalidInRequest;
    Take32Of(b.streamId, block);
  }

  lemma SynStreamFields(b: Body, block: seq<byte>)
    requires b.SynStream? && b.priority <= 7
    ensures W.Fields(b) + block == Be32(b.streamId) + (Be32(b.associated) + ([b.priority * 32] + ([b.slot] + block)))
  {
    hide Be32;
  }

  lemma ReadSynFields(b: Body, block: seq<byte>)
    requires b.SynStream? && b.priority <= 7
    ensures R.ParseSynFields(W.Fields(b) + block)
              == Got(R.SynFields(b.streamId, b.associated, b.priority, b.slot), block)
  {
    SynStreamFields(b, block);
    hide Take32, Be32, W.Fields, Take8;
    var s2 := [b.priority * 32] + ([b.slot] + block);
    Take32Of(b.streamId, Be32(b.associated) + s2);
    Take32Of(b.associated, s2);
    Take8Of(b.priority * 32, [b.slot] + block);
    Take8Of(b.slot, block);
  }

  lemma ReadSynStreamFields(b: Body, block: seq<byte>, limits: R.Limits)
    requires b.SynStream? && b.priority <= 7
    requires var p := R.ParseHeaders(block, b.streamId, R.InvalidInRequest(), limits); p.Got? && p.value == b.headers
    ensures R.ParseSynStream(W.Fields(b) + block, limits)
              == Got(b, R.ParseHeaders(block, b.streamId, R.InvalidInRequest(), limits).rest)
  {
    ReadSynFields(b, block);
    hide R.ParseHeaders, R.ParseSynFields, W.Fields, R.InvalidInRequest;
  }

  lemma Take8Of(x: byte, rest: seq<byte>)
    ensures Take8([x] + rest) == Got(x, rest)
  {}

  // -------------------------------------------------------------------------
  // Main results: writing, then reading

  lemma ReadData(id: uint32, flags: byte, data: seq<byte>, rest: seq<byte>)
    requires 0 < id && |data| <= MAX_DATA_LENGTH
    ensures R.ParseDataFrame(id, Be32(W.FlagsAnd(flags, |data|)) + (data + rest)) == Got(Data(id, flags, data), rest)
  {
    hide Take32, TakeBytes, Be32, W.FlagsAnd;
    W.FlagsAndLow(flags, |data|);
    Take32Of(W.FlagsAnd(flags, |data|), data + rest);
    TakeBytesOf(data, rest);
  }

  lemma DataRoundTrip(id: uint32, flags: byte, data: seq<byte>, rest: seq<byte>, limits: R.Limits)
    requires 0 < id < 0x8000_0000 && |data| <= MAX_DATA_LENGTH
    ensures R.ParseFrame(W.EmitData(id, flags, data, []).bytes + rest, limits) == Got(Data(id, flags, data), rest)
  {
    hide Take32, Be32, W.FlagsAnd, R.ParseDataFrame;
    var word: uint32 := W.FlagsAnd(flags, |data|);
    assert W.EmitData(id, flags, data, []).bytes + rest == Be32(id) + (Be32(word) + (data + rest));
    Take32Of(id, Be32(word) + (data + rest));
    ReadData(id, flags, data, rest);
  }

  lemma PlainRoundTrip(h: Header, b: Body, rest: seq<byte>, limits: R.Limits)
    requires !b.HasHeaders() && WellFormed(Control(h, b), [], limits)
    ensures var e := W.EmitPlain(h, b, []);
            R.ParseFrame(e.bytes + rest, limits) == Got(e.frame, rest)
  {
    hide *;
    PlainHeader(h, b, limits);
    var e := W.EmitPlain(h, b, []);
    var h2 := e.frame.header;
    assert W.ControlHeader(h2) + W.Fields(b) + rest == W.ControlHeader(h2) + (W.Fields(b) + rest);
    ReadPlain(h2, b, rest, limits);
    ReadHeader(h2, W.Fields(b) + rest, limits);
  }

  lemma PlainHeader(h: Header, b: Body, limits: R.Limits)
    requires !b.HasHeaders() && WellFormed(Control(h, b), [], limits)
    ensures var e := W.EmitPlain(h, b, []);
            && e.err == None && e.buf == [] && e.frame.Control? && e.frame.body == b
            && var h2 := e.frame.header;
            && e.bytes == W.ControlHeader(h2) + W.Fields(b)
            && h2.version < 0x8000 && h2.frameType == W.TypeOf(b) && h2.length == |W.Fields(b)|
            && (h2.flags == 0 || b.Settings?) && h2.length < TWO_24 && h2.length <= limits.MaxPayload()
            && WellFormed(Control(h2, b), [], limits)
  {
    hide W.ControlHeader, W.SettingsBytes, Be32;
  }

  lemma HeadersEmission(h: Header, b: Body, order: seq<Name>, limits: R.Limits)
    requires b.HasHeaders() && WellFormed(Control(h, b), order, limits)
    ensures var e := W.EmitWithHeaders(h, b, [], order);
            && e.err == None && e.buf == [] && e.frame.Control? && e.frame.body == b
            && var h2 := e.frame.header;
            && e.bytes == W.ControlHeader(h2) + W.Fields(b) + EmitBlock(b.headers, order).bytes
            && h2.version < 0x8000 && h2.frameType == W.TypeOf(b) && h2.flags == h.flags
            && h2.length < TWO_24 && h2.length <= limits.MaxPayload()
  {
    StableRoundTrip(b.headers, order, [], limits.MaxHeaders(), limits.MaxField(), b.streamId);
    assert [] + EmitBlock(b.headers, order).bytes == EmitBlock(b.headers, order).bytes;
    hide EmitBlock, ParseBlock, W.ControlHeader, W.Fields, Stable, Fits, IsOrder;
  }

  lemma LimitsFit(h: Header, b: Body, order: seq<Name>, limits: R.Limits)
    requires b.HasHeaders() && WellFormed(Control(h, b), order, limits)
    ensures b.SynStream? || b.SynReply? || b.MoreHeaders?
    ensures HeadersWellFormed(b, order, limits) && (b.SynStream? ==> b.priority <= 7)
  {
    hide HeadersWellFormed;
  }

  lemma HeadersRoundTrip(h: Header, b: Body, order: seq<Name>, rest: seq<byte>, limits: R.Limits)
    requires b.HasHeaders() && WellFormed(Control(h, b), order, limits)
    ensures var e := W.EmitWithHeaders(h, b, [], order);
            R.ParseFrame(e.bytes + rest, limits) == Got(e.frame, rest)
  {
    hide *;
    HeadersEmission(h, b, order, limits);
    LimitsFit(h, b, order, limits);
    var e := W.EmitWithHeaders(h, b, [], order);
    var h2, block := e.frame.header, EmitBlock(b.headers, order).bytes;
    assert W.ControlHeader(h2) + W.Fields(b) + block + rest == W.ControlHeader(h2) + (W.Fields(b) + block + rest);
    ReadWithHeaders(h2, b, order, rest, limits);
    ReadHeader(h2, W.Fields(b) + block + rest, limits);
  }

  /** One frame, with whatever behind it: the reader gets back the frame as writing left it, with
      the payload that was to be sent, and stops right behind it. */
  lemma FrameRoundTrip(f: Frame, order: seq<Name>, rest: seq<byte>, limits: R.Limits)
    requires WellFormed(f, order, limits)
    ensures var e := W.Emit(f, [], order);
            && e.err == None && e.buf == [] && SamePayload(f, e.frame)
            && R.ParseFrame(e.bytes + rest, limits) == Got(e.frame, rest)
  {
    match f {
      case Data(id, flags, data) => DataRoundTrip(id, flags, data, rest, limits);
      case Control(h, b) =>
        if b.HasHeaders() {
          HeadersEmission(h, b, order, limits);
          HeadersRoundTrip(h, b, order, rest, limits);
        } else {
          PlainHeader(h, b, limits);
          PlainRoundTrip(h, b, rest, limits);
        }
    }
    hide R.ParseFrame, W.EmitData, W.EmitPlain, W.EmitWithHeaders;
  }

  /** A frame to be sent, with the order in which its headers are visited. */
  datatype Sending = Sending(frame: Frame, order: seq<Name>)

  /** What a writer has sent, the frames as it left them, and whether all writes succeeded. */
  datatype Sent = Sent(bytes: seq<byte>, frames: seq<Frame>, ok: bool)

  /** All frames of the list, one after the other, from a given header buffer. */
  function SendAll(list: seq<Sending>, buf: seq<byte>): Sent {
    if list == [] then Sent([], [], true)
    else
      var e := W.Emit(list[0].frame, buf, list[0].order);
      var tail := SendAll(list[1..], e.buf);
      Sent(e.bytes + tail.bytes, [e.frame] + tail.frames, e.err.None? && tail.ok)
  }

  /** The next n frames. */
  function ReceiveAll(s: seq<byte>, n: nat, limits: R.Limits): Parsed<seq<Frame>>
    decreases n
  {
    if n == 0 then Got([], s)
    else
      var (f, s1) :- R.ParseFrame(s, limits);
      var (frames, rest) :- ReceiveAll(s1, n - 1, limits);
      Got([f] + frames, rest)
  }

  lemma ReceiveNext(s: seq<byte>, n: nat, limits: R.Limits, f: Frame, s1: seq<byte>, frames: seq<Frame>,
                    rest: seq<byte>)
    requires R.ParseFrame(s, limits) == Got(f, s1) && ReceiveAll(s1, n, limits) == Got(frames, rest)
    ensures ReceiveAll(s, n + 1, limits) == Got([f] + frames, rest)
  {
    hide R.ParseFrame;
  }

  ghost predicate SamePayloads(list: seq<Sending>, frames: seq<Frame>) {
    |frames| == |list| && forall i | 0 <= i < |list| :: SamePayload(list[i].frame, frames[i])
  }

  lemma SendFirst(list: seq<Sending>)
    requires list != []
    requires var e := W.Emit(list[0].frame, [], list[0].order); e.err == None && e.buf == []
    ensures var e := W.Emit(list[0].frame, [], list[0].order);
            var tail := SendAll(list[1..], []);
            SendAll(list, []) == Sent(e.bytes + tail.bytes, [e.frame] + tail.frames, tail.ok)
  {
    hide W.Emit;
  }

  lemma FirstPayload(list: seq<Sending>, f: Frame, frames: seq<Frame>)
    requires list != [] && SamePayload(list[0].frame, f) && SamePayloads(list[1..], frames)
    ensures SamePayloads(list, [f] + frames) && |frames| == |list| - 1
  {
    hide SamePayload;
  }

  /** The first frame of a list, given that the rest comes back. */
  lemma FirstRoundTrip(list: seq<Sending>, rest: seq<byte>, limits: R.Limits)
    requires list != [] && WellFormed(list[0].frame, list[0].order, limits)
    requires var tail := SendAll(list[1..], []);
             && tail.ok && SamePayloads(list[1..], tail.frames)
             && ReceiveAll(tail.bytes + rest, |list| - 1, limits) == Got(tail.frames, rest)
    ensures var sent := SendAll(list, []);
            && sent.ok && SamePayloads(list, sent.frames)
            && ReceiveAll(sent.bytes + rest, |list|, limits) == Got(sent.frames, rest)
  {
    hide *;
    var tail := SendAll(list[1..], []);
    FrameRoundTrip(list[0].frame, list[0].order, tail.bytes + rest, limits);
    var e := W.Emit(list[0].frame, [], list[0].order);
    SendFirst(list);
    FirstPayload(list, e.frame, tail.frames);
    assert e.bytes + tail.bytes + rest == e.bytes + (tail.bytes + rest);
    ReceiveNext(e.bytes + tail.bytes + rest, |list| - 1, limits, e.frame, tail.bytes + rest, tail.frames, rest);
  }

  /** Any list of well-formed frames: everything is sent without error, the reader gets back the
      same frames in the same order, and leaves what follows untouched. */
  lemma {:induction false} FramesRoundTrip(list: seq<Sending>, rest: seq<byte>, limits: R.Limits)
    requires forall x | x in list :: WellFormed(x.frame, x.order, limits)
    ensures var sent := SendAll(list, []);
            && sent.ok && SamePayloads(list, sent.frames)
            && ReceiveAll(sent.bytes + rest, |list|, limits) == Got(sent.frames, rest)
  {
    if list == [] {
      assert [] + rest == rest;
    } else {
      hide *;
      assert list[0] in list;
      FramesRoundTrip(list[1..], rest, limits);
      FirstRoundTrip(list, rest, limits);
    }
  }

  // -------------------------------------------------------------------------
  // Main results: reading, then writing

  /** The bytes of a frame without a header block, as its header has them. */
  function RawBytes(f: Frame): seq<byte>
    requires if f.Control? then f.header.version < 0x8000 else |f.data| <= MAX_DATA_LENGTH
  {
    match f
    case Control(h, b) => W.ControlHeader(h) + W.Fields(b)
    case Data(id, flags, data) => Be32(id) + Be32(W.FlagsAnd(flags, |data|)) + data
  }

  lemma SettingBytes(s: seq<byte>)
    requires R.ParseSetting(s).Got?
    ensures var p := R.ParseSetting(s);
            p.value.id < TWO_24 && s == Be32(W.FlagsAnd(p.value.flag, p.value.id)) + Be32(p.value.value) + p.rest
  {
    var word := Take32(s);
    var value := Take32(word.rest);
    W.FlagsAndLow(word.value / TWO_24, word.value % TWO_24);
    assert word.value == word.value / TWO_24 * TWO_24 + word.value % TWO_24;
    assert s == Be32(word.value) + (Be32(value.value) + value.rest);
    hide Be32, W.FlagsAnd;
  }

  lemma {:induction false} SettingListBytes(s: seq<byte>, n: nat)
    requires R.ParseSettingList(s, n).Got?
    ensures var p := R.ParseSettingList(s, n);
            && |p.value| == n && s == W.SettingsBytes(p.value) + p.rest
            && forall x | x in p.value :: x.id < TWO_24
  {
    if n == 0 {
      assert [] + s == s;
    } else {
      hide R.ParseSetting, Be32, W.FlagsAnd;
      var before := R.ParseSettingList(s, n - 1);
      SettingListBytes(s, n - 1);
      SettingBytes(before.rest);
      var last := R.ParseSetting(before.rest).value;
      SettingBytesNext(before.value, last);
      Associate(W.SettingsBytes(before.value), Be32(W.FlagsAnd(last.flag, last.id)) + Be32(last.value),
                R.ParseSetting(before.rest).rest);
    }
  }

  lemma SettingBytesNext(settings: seq<Setting>, x: Setting)
    ensures W.SettingsBytes(settings + [x])
              == W.SettingsBytes(settings) + (Be32(W.FlagsAnd(x.flag, x.id)) + Be32(x.value))
  {
    hide Be32, W.FlagsAnd;
    assert (settings + [x])[..|settings|] == settings;
  }

  lemma SettingsBytesRead(h: Header, s: seq<byte>)
    requires R.ParseSettings(h, s).Got?
    ensures var p := R.ParseSettings(h, s);
            && p.value.Settings? && s == W.Fields(p.value) + p.rest
            && 4 + 8 * |p.value.settings| <= h.length
            && forall x | x in p.value.settings :: x.id < TWO_24
  {
    var n := Take32(s);
    SettingListBytes(n.rest, n.value);
    var p := R.ParseSettingList(n.rest, n.value);
    hide R.ParseSettingList, W.SettingsBytes, Be32, Take32;
    SettingsFields(p.value, s, p.rest);
  }

  lemma SettingsFields(settings: seq<Setting>, s: seq<byte>, rest: seq<byte>)
    requires |settings| < 0x1_0000_0000 && s == Be32(|settings|) + (W.SettingsBytes(settings) + rest)
    ensures s == W.Fields(Settings(settings)) + rest
  {
    hide W.SettingsBytes, Be32;
  }

  lemma RstStreamBytes(s: seq<byte>)
    requires R.ParseRstStream(s).Got?
    ensures var p := R.ParseRstStream(s);
            p.value.RstStream? && p.value.streamId != 0 && p.value.status != 0 && s == W.Fields(p.value) + p.rest
  {
    var a := Take32(s);
    var b := Take32(a.rest);
    hide Take32, Be32;
    assert s == Be32(a.value) + Be32(b.value) + b.rest;
  }

  lemma WordsBytes(h: Header, s: seq<byte>)
    requires R.ParseWords(h, s).Got?
    ensures var p := R.ParseWords(h, s);
            s == Be32(p.value.0) + Be32(p.value.1) + p.rest && h.flags == 0 && h.length == 8
  {
    var a := Take32(s);
    var b := Take32(a.rest);
    hide Take32, Be32;
    assert s == Be32(a.value) + Be32(b.value) + b.rest;
  }

  lemma PingBytes(h: Header, s: seq<byte>)
    requires R.ParsePing(h, s).Got?
    ensures var p := R.ParsePing(h, s); p.value.Ping? && p.value.id != 0 && s == W.Fields(p.value) + p.rest
  {
    var a := Take32(s);
    hide Take32, Be32;
  }

  ghost predicate ReadFrom(h: Header, b: Body, s: seq<byte>, rest: seq<byte>, limits: R.Limits) {
    && s == W.Fields(b) + rest
    && WellFormed(Control(h, b), [], limits) && h.frameType == W.TypeOf(b)
    && (b.GoAway? || b.WindowUpdate? ==> h.flags == 0 && h.length == 8)
  }

  /** A body without headers is read from exactly the bytes of its fields, and is well formed. */
  lemma PlainBytes(h: Header, s: seq<byte>, limits: R.Limits)
    requires R.ParseBody(h, s, limits).Got? && !R.ParseBody(h, s, limits).value.HasHeaders()
    requires h.length <= limits.MaxPayload() && h.length <= MAX_DATA_LENGTH && 8 <= limits.MaxPayload()
    ensures var p := R.ParseBody(h, s, limits); ReadFrom(h, p.value, s, p.rest, limits)
  {
    hide R.ParseRstStream, R.ParseSettings, R.ParsePing, R.ParseWords, W.SettingsBytes, Be32;
    if h.frameType == TYPE_RST_STREAM {
      RstStreamBytes(s);
    } else if h.frameType == TYPE_SETTINGS {
      SettingsBytesRead(h, s);
    } else if h.frameType == TYPE_PING {
      PingBytes(h, s);
    } else if h.frameType == TYPE_GO_AWAY || h.frameType == TYPE_WINDOW_UPDATE {
      WordsBytes(h, s);
    }
  }

  lemma ReadDataBytes(s: seq<byte>, id: uint32)
    requires R.ParseDataFrame(id, s).Got? && id < 0x8000_0000
    ensures var p := R.ParseDataFrame(id, s);
            && p.value.Data? && WellFormed(p.value, [], R.Limits(0, 0, 0))
            && Be32(id) + s == RawBytes(p.value) + p.rest
  {
    var word := Take32(s);
    var data := TakeBytes(word.rest, word.value % TWO_24);
    W.FlagsAndLow(word.value / TWO_24, word.value % TWO_24);
    assert word.value == word.value / TWO_24 * TWO_24 + word.value % TWO_24;
    hide Take32, Be32, W.FlagsAnd, TakeBytes;
    assert Be32(id) + s == Be32(id) + Be32(word.value) + data.value + data.rest;
  }

  lemma ReadControlBytes(s: seq<byte>, version: uint16, frameType: uint16, limits: R.Limits)
    requires version < 0x8000 && 8 <= limits.MaxPayload()
    requires var p := R.ParseControlFrame(version, frameType, s, limits);
             p.Got? && (p.value.Control? ==> !p.value.body.HasHeaders())
    ensures var p := R.ParseControlFrame(version, frameType, s, limits);
            && p.value.Control? && p.value.header.version == version
            && WellFormed(p.value, [], limits)
            && Be16(0x8000 + version) + Be16(frameType) + s == RawBytes(p.value) + p.rest
            && (p.value.body.GoAway? || p.value.body.WindowUpdate? ==>
                  p.value.header == Header(version, W.TypeOf(p.value.body), 0, 8))
  {
    hide Be32, Be16, W.FlagsAnd, W.Fields, R.ParseBody;
    var word := Take32(s);
    var h := Header(version, frameType, word.value / TWO_24, word.value % TWO_24);
    assert word.value == h.flags * TWO_24 + h.length;
    hide Take32;
    PlainBytes(h, word.rest, limits);
    var p := R.ParseBody(h, word.rest, limits);
    W.FlagsAndLow(h.flags, h.length);
    Rejoin(Be16(0x8000 + version) + Be16(frameType), Be32(word.value), W.Fields(p.value), p.rest);
  }

  lemma Rejoin(a: seq<byte>, b: seq<byte>, c: seq<byte>, d: seq<byte>)
    ensures a + (b + (c + d)) == a + b + c + d
  {}

  lemma FirstWord(word: uint32)
    requires word >= 0x8000_0000
    ensures Be32(word) == Be16(0x8000 + word / 0x1_0000 % 0x8000) + Be16(word % 0x1_0000)
  {
    assert word / 0x1_0000 == 0x8000 + word / 0x1_0000 % 0x8000;
  }

  predicate IsPlain(f: Frame) { f.Control? ==> !f.body.HasHeaders() }

  /** Any frame without a header block that is read is well formed, and its bytes are known. */
  lemma ReadBytes(s: seq<byte>, limits: R.Limits)
    requires R.ParseFrame(s, limits).Got? && IsPlain(R.ParseFrame(s, limits).value) && 8 <= limits.MaxPayload()
    ensures var p := R.ParseFrame(s, limits);
            && WellFormed(p.value, [], limits)
            && (p.value.Control? ==> p.value.header.version < 0x8000)
            && s == RawBytes(p.value) + p.rest
            && (p.value.Control? && (p.value.body.GoAway? || p.value.body.WindowUpdate?) ==>
                  p.value.header == Header(p.value.header.version, W.TypeOf(p.value.body), 0, 8))
  {
    var word := Take32(s);
    if word.value >= 0x8000_0000 {
      ReadControlBytes(word.rest, word.value / 0x1_0000 % 0x8000, word.value % 0x1_0000, limits);
      FirstWord(word.value);
    } else {
      ReadDataBytes(word.rest, word.value);
    }
    hide R.ParseControlFrame, R.ParseDataFrame, RawBytes, Be32, Be16, Take32;
  }

  lemma EmitsRawBytes(f: Frame, limits: R.Limits)
    requires IsPlain(f) && WellFormed(f, [], limits)
    ensures var e := W.Emit(f, [], []);
            && (e.frame.Control? ==> e.frame.header.version < 0x8000)
            && (f.Data? ==> e.frame == f)
            && e.bytes == RawBytes(e.frame)
  {
    if f.Control? { PlainHeader(f.header, f.body, limits); }
    hide W.EmitPlain, W.ControlHeader, W.Fields, Be32, W.FlagsAnd;
  }

  /** Whatever frame without a header block is read can be written again; reading that gives the
      same payload, and the bytes are the same exactly when the header was in the form that
      writing gives it: always for DATA, for GOAWAY and WINDOW_UPDATE just if the version was 3. */
  lemma DecodeEncodeDecode(s: seq<byte>, behind: seq<byte>, limits: R.Limits)
    requires R.ParseFrame(s, limits).Got? && IsPlain(R.ParseFrame(s, limits).value) && 8 <= limits.MaxPayload()
    ensures var p := R.ParseFrame(s, limits);
            var e := W.Emit(p.value, [], []);
            && e.err == None && SamePayload(p.value, e.frame)
            && R.ParseFrame(e.bytes + behind, limits) == Got(e.frame, behind)
            && (e.bytes + p.rest == s <==> e.frame == p.value)
            && (p.value.Data? ==> e.frame == p.value)
  {
    hide *;
    var p := R.ParseFrame(s, limits);
    var e := W.Emit(p.value, [], []);
    ReadBytes(s, limits);
    EmitsRawBytes(p.value, limits);
    FrameRoundTrip(p.value, [], behind, limits);
    FrameRoundTrip(p.value, [], p.rest, limits);
  }

  lemma VersionDecides(s: seq<byte>, limits: R.Limits)
    requires R.ParseFrame(s, limits).Got? && 8 <= limits.MaxPayload()
    requires var f := R.ParseFrame(s, limits).value; f.Control? && (f.body.GoAway? || f.body.WindowUpdate?)
    ensures var f := R.ParseFrame(s, limits).value;
            W.Emit(f, [], []).frame == f <==> f.header.version == VERSION
  {
    ReadBytes(s, limits);
    hide R.ParseFrame, RawBytes, WellFormed, W.ControlHeader, W.Fields;
  }

  lemma ReadHeadersChecked(s: seq<byte>, id: uint32, invalid: set<Name>, limits: R.Limits)
    requires R.ParseHeaders(s, id, invalid, limits).Got?
    ensures id != 0
    ensures var h := R.ParseHeaders(s, id, invalid, limits).value;
            (AsciiNames(h) ==> Stable(h)) && h.Keys !! invalid
  {
    hide ParseBlock, Stable, AsciiNames;
    if AsciiNames(R.ParseHeaders(s, id, invalid, limits).value) {
      ParsedIsStable(s, limits.MaxHeaders(), limits.MaxField(), id);
    }
  }

  /** What the read method of the frame has checked of the headers. */
  ghost predicate Checked(b: Body)
    requires b.HasHeaders()
  {
    && b.streamId != 0 && (AsciiNames(b.headers) ==> Stable(b.headers))
    && b.headers.Keys !! Refused(b) && (b.SynStream? ==> b.priority <= 7)
  }

  lemma SynStreamChecked(s: seq<byte>, limits: R.Limits)
    requires R.ParseSynStream(s, limits).Got?
    ensures var p := R.ParseSynStream(s, limits).value; p.SynStream? && Checked(p)
  {
    var f := R.ParseSynFields(s);
    assert f.value.priority <= 7;
    hide R.ParseSynFields, R.InvalidInRequest;
    ReadHeadersChecked(f.rest, f.value.id, R.InvalidInRequest(), limits);
    hide R.ParseHeaders, Stable, AsciiNames;
  }

  lemma SynReplyChecked(s: seq<byte>, limits: R.Limits)
    requires R.ParseSynReply(s, limits).Got?
    ensures var p := R.ParseSynReply(s, limits).value; p.SynReply? && Checked(p)
  {
    var first := Take32(s);
    hide R.InvalidInReply, Take32;
    ReadHeadersChecked(first.rest, first.value, R.InvalidInReply(), limits);
    hide R.ParseHeaders, Stable, AsciiNames;
  }

  lemma MoreHeadersChecked(s: seq<byte>, limits: R.Limits)
    requires R.ParseMoreHeaders(s, limits).Got?
    ensures var p := R.ParseMoreHeaders(s, limits).value; p.MoreHeaders? && Checked(p)
  {
    var first := Take32(s);
    hide R.InvalidInReply, R.InvalidInRequest, Take32;
    var invalid := if first.value % 2 == 0 then R.InvalidInRequest() else R.InvalidInReply();
    ReadHeadersChecked(first.rest, first.value, invalid, limits);
    hide R.ParseHeaders, Stable, AsciiNames;
  }

  lemma BodyChecked(h: Header, s: seq<byte>, limits: R.Limits)
    requires R.ParseBody(h, s, limits).Got? && R.ParseBody(h, s, limits).value.HasHeaders()
    ensures Checked(R.ParseBody(h, s, limits).value)
  {
    if h.frameType == TYPE_SYN_STREAM {
      SynStreamChecked(s, limits);
    } else if h.frameType == TYPE_SYN_REPLY {
      SynReplyChecked(s, limits);
    } else if h.frameType == TYPE_HEADERS {
      MoreHeadersChecked(s, limits);
    }
    hide Checked, R.ParseSynStream, R.ParseSynReply, R.ParseMoreHeaders, Take32, R.ParseSettingList;
  }

  /** The frame is written without error and read back as it was written. */
  ghost predicate ComesBack(f: Frame, order: seq<Name>, behind: seq<byte>, limits: R.Limits) {
    var e := W.Emit(f, [], order);
    e.err == None && R.ParseFrame(e.bytes + behind, limits) == Got(e.frame, behind)
  }

  ghost predicate StillFits(b: Body, order: seq<Name>, limits: R.Limits)
    requires b.HasHeaders()
  {
    && Fits(b.headers, limits.MaxHeaders(), limits.MaxField())
    && LengthFits(|W.Fields(b)| + |EmitBlock(b.headers, order).bytes|, limits)
  }

  /** A frame with the header that writing gives it is read only if its length is allowed. */
  lemma LengthDecides(h: Header, payload: seq<byte>, limits: R.Limits)
    requires h.version < 0x8000 && h.length < TWO_24
    requires R.ParseFrame(W.ControlHeader(h) + payload, limits).Got?
    ensures h.length <= limits.MaxPayload()
    ensures var p := R.ParseBody(h, payload, limits);
            p.Got? && R.ParseFrame(W.ControlHeader(h) + payload, limits) == Got(Control(h, p.value), p.rest)
  {
    hide R.ParseBody, Take32, Be32, W.ControlHeader;
    HeaderWords(h, payload);
    WordParts(h);
    var word: uint32 := (0x8000 + h.version) * 0x1_0000 + h.frameType;
    var lengthWord: uint32 := h.flags * TWO_24 + h.length;
    Take32Of(word, Be32(lengthWord) + payload);
    Take32Of(lengthWord, payload);
  }

  /** A body is read back only if its header block is. */
  lemma BlockDecides(h: Header, b: Body, block: seq<byte>, rest: seq<byte>, limits: R.Limits)
    requires b.HasHeaders() && (b.SynStream? ==> b.priority <= 7) && h.frameType == W.TypeOf(b)
    requires R.ParseBody(h, W.Fields(b) + block, limits) == Got(b, rest)
    ensures R.ParseHeaders(block, b.streamId, Refused(b), limits) == Got(b.headers, rest)
  {
    hide R.ParseHeaders, R.ParseSynStream, R.ParseSynReply, R.ParseMoreHeaders, Be32;
    hide R.InvalidInRequest, R.InvalidInReply;
    if b.SynStream? {
      SynBlockDecides(b, block, rest, limits);
    } else if b.SynReply? {
      ReplyBlockDecides(b, block, rest, limits);
    } else {
      MoreBlockDecides(b, block, rest, limits);
    }
  }

  lemma SynBlockDecides(b: Body, block: seq<byte>, rest: seq<byte>, limits: R.Limits)
    requires b.SynStream? && b.priority <= 7 && R.ParseSynStream(W.Fields(b) + block, limits) == Got(b, rest)
    ensures R.ParseHeaders(block, b.streamId, R.InvalidInRequest(), limits) == Got(b.headers, rest)
  {
    hide R.ParseHeaders, R.ParseSynFields, W.Fields, R.InvalidInRequest;
    ReadSynFields(b, block);
  }

  lemma ReplyBlockDecides(b: Body, block: seq<byte>, rest: seq<byte>, limits: R.Limits)
    requires b.SynReply? && R.ParseSynReply(W.Fields(b) + block, limits) == Got(b, rest)
    ensures R.ParseHeaders(block, b.streamId, R.InvalidInReply(), limits) == Got(b.headers, rest)
  {
    hide R.ParseHeaders, Take32, Be32, R.InvalidInReply;
    Take32Of(b.streamId, block);
  }

  lemma MoreBlockDecides(b: Body, block: seq<byte>, rest: seq<byte>, limits: R.Limits)
    requires b.MoreHeaders? && R.ParseMoreHeaders(W.Fields(b) + block, limits) == Got(b, rest)
    ensures R.ParseHeaders(block, b.streamId, Refused(b), limits) == Got(b.headers, rest)
  {
    hide R.ParseHeaders, Take32, Be32, R.InvalidInReply, R.InvalidInRequest;
    Take32Of(b.streamId, block);
  }

  lemma HeadersDecide(b: Body, order: seq<Name>, behind: seq<byte>, limits: R.Limits)
    requires b.HasHeaders() && IsOrder(order, b.headers) && AsciiNames(b.headers)
    requires EmitBlock(b.headers, order).ok
    requires R.ParseHeaders(EmitBlock(b.headers, order).bytes + behind, b.streamId, Refused(b), limits)
               == Got(b.headers, behind)
    ensures Stable(b.headers) && Fits(b.headers, limits.MaxHeaders(), limits.MaxField())
    ensures b.headers.Keys !! Refused(b)
  {
    hide EmitBlock, ParseBlock, Stable, Fits, Refused, AsciiNames, IsOrder;
    BlockRoundTrip(b.headers, order, behind, limits.MaxHeaders(), limits.MaxField(), b.streamId);
  }

  lemma EmissionDecides(h: Header, b: Body, order: seq<Name>)
    requires b.HasHeaders() && W.EmitWithHeaders(h, b, [], order).err == None
    ensures var e := W.EmitWithHeaders(h, b, [], order);
            var h2 := e.frame.header;
            && b.streamId != 0 && EmitBlock(b.headers, order).ok
            && |W.Fields(b)| + |EmitBlock(b.headers, order).bytes| <= MAX_DATA_LENGTH
            && e.frame == Control(h2, b) && h2.version == VERSION && h2.frameType == W.TypeOf(b)
            && h2.length == |W.Fields(b)| + |EmitBlock(b.headers, order).bytes|
            && e.bytes == W.ControlHeader(h2) + W.Fields(b) + EmitBlock(b.headers, order).bytes
  {
    hide EmitBlock, W.ControlHeader, W.Fields;
    assert [] + EmitBlock(b.headers, order).bytes == EmitBlock(b.headers, order).bytes;
  }

  /** What writing a frame without a header block amounts to, if it succeeds. */
  lemma PlainEmissionDecides(h: Header, b: Body)
    requires !b.HasHeaders() && W.EmitPlain(h, b, []).err == None
    ensures (b.RstStream? ==> b.streamId != 0 && b.status != 0) && (b.Ping? ==> b.id != 0)
    ensures var e := W.EmitPlain(h, b, []);
            var h2 := e.frame.header;
            && |W.Fields(b)| <= MAX_DATA_LENGTH && e.frame == Control(h2, b)
            && h2.version == VERSION && h2.frameType == W.TypeOf(b) && h2.length == |W.Fields(b)|
            && e.bytes == W.ControlHeader(h2) + W.Fields(b)
            && |W.Fields(b)| == (if b.Settings? then 4 + 8 * |b.settings| else if b.Ping? then 4 else 8)
  {
    hide W.ControlHeader, W.SettingsBytes, Be32;
  }

  lemma ReadSettingIds(h: Header, s: seq<byte>, limits: R.Limits)
    requires R.ParseBody(h, s, limits).Got? && R.ParseBody(h, s, limits).value.Settings?
    requires h.frameType == TYPE_SETTINGS
    ensures forall x | x in R.ParseBody(h, s, limits).value.settings :: x.id < TWO_24
  {
    hide R.ParseSettings;
    SettingsBytesRead(h, s);
  }

  lemma PlainComingBackIsWellFormed(h: Header, b: Body, order: seq<Name>, behind: seq<byte>, limits: R.Limits)
    requires !b.HasHeaders() && ComesBack(Control(h, b), order, behind, limits)
    ensures WellFormed(Control(h, b), order, limits)
  {
    hide R.ParseFrame, R.ParseBody, W.EmitPlain, W.ControlHeader, W.Fields;
    var e := W.EmitPlain(h, b, []);
    PlainEmissionDecides(h, b);
    var h2 := e.frame.header;
    assert W.ControlHeader(h2) + W.Fields(b) + behind == W.ControlHeader(h2) + (W.Fields(b) + behind);
    LengthDecides(h2, W.Fields(b) + behind, limits);
    if b.Settings? { ReadSettingIds(h2, W.Fields(b) + behind, limits); }
  }

  lemma DataComingBackIsWellFormed(f: Frame, order: seq<Name>, behind: seq<byte>, limits: R.Limits)
    requires f.Data? && ComesBack(f, order, behind, limits)
    ensures WellFormed(f, order, limits)
  {
    hide R.ParseFrame;
  }

  /** Any frame at all, with whatever behind it and in whatever order its headers are visited, as
      far as their names are ASCII: it is written without error and read back as it was written
      if and only if it is well formed. */
  lemma ComesBackExactly(f: Frame, order: seq<Name>, behind: seq<byte>, limits: R.Limits)
    requires f.Control? && f.body.HasHeaders() ==> IsOrder(order, f.body.headers) && AsciiNames(f.body.headers)
    ensures ComesBack(f, order, behind, limits) <==> WellFormed(f, order, limits)
  {
    hide IsOrder, AsciiNames, WellFormed, ComesBack;
    if WellFormed(f, order, limits) {
      FrameRoundTrip(f, order, behind, limits);
      ComesBackIs(f, order, behind, limits);
    } else if ComesBack(f, order, behind, limits) {
      match f {
        case Data(_, _, _) => DataComingBackIsWellFormed(f, order, behind, limits);
        case Control(h, b) =>
          if b.HasHeaders() {
            ComingBackIsWellFormed(h, b, order, behind, limits);
          } else {
            PlainComingBackIsWellFormed(h, b, order, behind, limits);
          }
      }
    }
  }

  lemma ComesBackIs(f: Frame, order: seq<Name>, behind: seq<byte>, limits: R.Limits)
    ensures var e := W.Emit(f, [], order);
            ComesBack(f, order, behind, limits) <==>
              e.err == None && R.ParseFrame(e.bytes + behind, limits) == Got(e.frame, behind)
  {
    hide W.Emit, R.ParseFrame;
  }

  lemma WellFormedHeaders(h: Header, b: Body, order: seq<Name>, limits: R.Limits)
    requires b.HasHeaders() && HeadersWellFormed(b, order, limits) && (b.SynStream? ==> b.priority <= 7)
    ensures WellFormed(Control(h, b), order, limits)
  {
    hide HeadersWellFormed;
  }

  lemma ComingBackIsWellFormed(h: Header, b: Body, order: seq<Name>, behind: seq<byte>, limits: R.Limits)
    requires b.HasHeaders() && IsOrder(order, b.headers) && AsciiNames(b.headers)
    requires ComesBack(Control(h, b), order, behind, limits)
    ensures WellFormed(Control(h, b), order, limits)
  {
    hide R.ParseFrame, R.ParseBody, R.ParseHeaders, W.EmitWithHeaders, W.ControlHeader, W.Fields, W.TypeOf;
    hide EmitBlock, Stable, Fits, Refused, AsciiNames, IsOrder, WellFormed;
    var e := W.EmitWithHeaders(h, b, [], order);
    EmissionDecides(h, b, order);
    var h2, block := e.frame.header, EmitBlock(b.headers, order).bytes;
    Regroup(W.ControlHeader(h2), W.Fields(b), block, behind);
    LengthDecides(h2, W.Fields(b) + (block + behind), limits);
    BodyChecked(h2, W.Fields(b) + (block + behind), limits);
    BlockDecides(h2, b, block + behind, behind, limits);
    HeadersDecide(b, order, behind, limits);
    WellFormedHeaders(h, b, order, limits);
  }

  lemma Regroup(a: seq<byte>, b: seq<byte>, c: seq<byte>, d: seq<byte>)
    ensures a + b + c + d == a + (b + (c + d))
  {}

  /** A frame with a header block of ASCII names that is read can be written and read again, in
      whatever order its headers are visited, if and only if it still fits: values of equal
      names, which reading joins, may have outgrown the limits. */
  lemma ReadHeadersFrame(h: Header, s: seq<byte>, order: seq<Name>, behind: seq<byte>, limits: R.Limits)
    requires R.ParseBody(h, s, limits).Got? && R.ParseBody(h, s, limits).value.HasHeaders()
    requires var b := R.ParseBody(h, s, limits).value; IsOrder(order, b.headers) && AsciiNames(b.headers)
    ensures var b := R.ParseBody(h, s, limits).value;
            ComesBack(Control(h, b), order, behind, limits) <==> StillFits(b, order, limits)
  {
    hide R.ParseBody, Stable, Fits, IsOrder, EmitBlock, W.Fields, AsciiNames, ComesBack, LengthFits, Refused;
    BodyChecked(h, s, limits);
    ComesBackExactly(Control(h, R.ParseBody(h, s, limits).value), order, behind, limits);
  }
}
