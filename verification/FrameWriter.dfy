/** Writing frames: spdy/write.go without compression. */
module FrameWriter {
  import opened Options
  import opened Bytes
  import opened Frames
  import opened HeaderBlock

  /** uint32(flags)<<24 | low, whose top byte is or-ed when low does not fit 24 bits. */
  function FlagsAnd(flags: byte, low: uint32): uint32 {
    Or(flags, low / TWO_24) * TWO_24 + low % TWO_24
  }

  lemma FlagsAndLow(flags: byte, low: uint32)
    requires low < TWO_24
    ensures FlagsAnd(flags, low) == flags * TWO_24 + low
  {
    OrZero(flags);
  }

  /** 0x8000 | version: the control bit is set, and may have been. */
  function ControlVersion(version: uint16): uint16 {
    if version < 0x8000 then 0x8000 + version else version
  }

  /** writeControlFrameHeader. */
  function ControlHeader(h: Header): (s: seq<byte>)
    ensures |s| == 8
  {
    Be16(ControlVersion(h.version)) + Be16(h.frameType) + Be32(FlagsAnd(h.flags, h.length))
  }

  function TypeOf(b: Body): uint16 {
    match b
    case SynStream(_, _, _, _, _) => TYPE_SYN_STREAM
    case SynReply(_, _) => TYPE_SYN_REPLY
    case RstStream(_, _) => TYPE_RST_STREAM
    case Settings(_) => TYPE_SETTINGS
    case Ping(_) => TYPE_PING
    case GoAway(_, _) => TYPE_GO_AWAY
    case MoreHeaders(_, _) => TYPE_HEADERS
    case WindowUpdate(_, _) => TYPE_WINDOW_UPDATE
  }

  function SettingsBytes(settings: seq<Setting>): (s: seq<byte>)
    ensures |s| == 8 * |settings|
  {
    if settings == [] then []
    else
      var last := settings[|settings| - 1];
      SettingsBytes(settings[..|settings| - 1]) + (Be32(FlagsAnd(last.flag, last.id)) + Be32(last.value))
  }

  /** The fields of a body in the order of the wire, up to its header block if it has one. */
  function Fields(b: Body): seq<byte> {
    match b
    case SynStream(id, associated, priority, slot, _) =>
      Be32(id) + (Be32(associated) + [priority * 32 % 256, slot])
    case SynReply(id, _) => Be32(id)
    case RstStream(id, status) => Be32(id) + Be32(status)
    case Settings(settings) => Be32(|settings| % 0x1_0000_0000) + SettingsBytes(settings)
    case Ping(id) => Be32(id)
    case GoAway(lastGood, status) => Be32(lastGood) + Be32(status)
    case MoreHeaders(id, _) => Be32(id)
    case WindowUpdate(id, delta) => Be32(id) + Be32(delta)
  }

  /** The bytes sent, the frame with the header that writing leaves in it, what stays in the
      header buffer, and the error returned. */
  datatype Emission = Emission(bytes: seq<byte>, frame: Frame, buf: seq<byte>, err: Option<Error>)

  /** A frame without a header block: the header is set, then header and fields are sent. */
  function EmitPlain(h: Header, b: Body, buf: seq<byte>): Emission {
    var fields := Fields(b);
    var h1 := h.(version := VERSION, frameType := TypeOf(b));
    if b.Settings? then
      if |fields| > MAX_DATA_LENGTH then Emission([], Control(h1, b), buf, Some(InvalidControlFrame(0)))
      else
        var h2 := h1.(length := |fields|);
        Emission(ControlHeader(h2) + fields, Control(h2, b), buf, None)
    else if (b.RstStream? && b.streamId == 0) || (b.Ping? && b.id == 0) then
      Emission([], Control(h, b), buf, Some(ZeroStreamId))
    else
      var h2 := h1.(flags := 0, length := if b.Ping? then 4 else 8);
      if b.RstStream? && b.status == 0 then
        Emission(ControlHeader(h2) + Be32(b.streamId), Control(h2, b), buf, Some(InvalidControlFrame(b.streamId)))
      else Emission(ControlHeader(h2) + fields, Control(h2, b), buf, None)
  }

  /** A frame whose header block is in the header buffer, which only success empties. */
  function EmitMarshalled(h: Header, b: Body, buf: seq<byte>): Emission {
    var h1 := h.(version := VERSION, frameType := TypeOf(b));
    var length := |buf| + |Fields(b)|;
    if length > MAX_DATA_LENGTH then Emission([], Control(h1, b), buf, Some(InvalidControlFrame(0)))
    else
      var h2 := h1.(length := length);
      Emission(ControlHeader(h2) + Fields(b) + buf, Control(h2, b), [], None)
  }

  /** A frame with a header block, for a given order of its names. */
  function EmitWithHeaders(h: Header, b: Body, buf: seq<byte>, order: seq<Name>): Emission
    requires b.HasHeaders()
  {
    if b.streamId == 0 then Emission([], Control(h, b), buf, Some(ZeroStreamId))
    else
      var block := EmitBlock(b.headers, order);
      if block.ok then EmitMarshalled(h, b, buf + block.bytes)
      else Emission([], Control(h, b), buf + block.bytes, Some(InvalidControlFrame(0)))
  }

  function EmitData(id: uint32, flags: byte, data: seq<byte>, buf: seq<byte>): Emission {
    var f := Data(id, flags, data);
    if id == 0 then Emission([], f, buf, Some(ZeroStreamId))
    else if id >= 0x8000_0000 || |data| > MAX_DATA_LENGTH then
      Emission([], f, buf, Some(InvalidDataFrame(id)))
    else Emission(Be32(id) + Be32(FlagsAnd(flags, |data|)) + data, f, buf, None)
  }

  ghost predicate OrderFor(f: Frame, order: seq<Name>) {
    f.Control? && f.body.HasHeaders() ==> IsOrder(order, f.body.headers)
  }

  /** WriteFrame. */
  function Emit(f: Frame, buf: seq<byte>, order: seq<Name>): Emission {
    match f
    case Data(id, flags, data) => EmitData(id, flags, data, buf)
    case Control(h, b) => if b.HasHeaders() then EmitWithHeaders(h, b, buf, order) else EmitPlain(h, b, buf)
  }

  // -------------------------------------------------------------------------
  // The writer itself

  class Writer {
    var output: seq<byte>     // what has been written to the connection
    var headerBuf: seq<byte>

    constructor ()
      ensures output == [] && headerBuf == []
    {
      output, headerBuf := [], [];
    }

    method Write(bytes: seq<byte>)
      modifies this`output
      ensures output == old(output) + bytes
    {
      output := output + bytes;
    }

    method WriteControlFrameHeader(h: Header)
      modifies this`output
      ensures output == old(output) + ControlHeader(h)
    {
      var start := output;
      Write(Be16(ControlVersion(h.version)));
      Write(Be16(h.frameType));
      Write(Be32(FlagsAnd(h.flags, h.length)));
      assert output == start + ControlHeader(h);
    }

    /** Visits the map in any order, appends to the header buffer, and counts the bytes. */
    method WriteHeaderValueBlock(h: Headers) returns (n: nat, ok: bool, ghost order: seq<Name>)
      modifies this`headerBuf
      ensures IsOrder(order, h)
      ensures headerBuf == old(headerBuf) + EmitBlock(h, order).bytes && ok == EmitBlock(h, order).ok
      ensures n == |EmitBlock(h, order).bytes|
    {
      if |h| > MAX_INT_32 {
        assert headerBuf + [] == headerBuf;
        return 0, false, AnyOrder(h.Keys);
      }
      ghost var start := headerBuf;
      headerBuf := headerBuf + Be32(|h|);
      n, ok, order := WriteEntries(h);
      n := n + 4;
      assert headerBuf == start + (Be32(|h|) + EmitEntries(h, order).bytes);
    }

    /** The loop over the map. */
    method WriteEntries(h: Headers) returns (n: nat, ok: bool, ghost order: seq<Name>)
      modifies this`headerBuf
      ensures IsOrder(order, h)
      ensures headerBuf == old(headerBuf) + EmitEntries(h, order).bytes && ok == EmitEntries(h, order).ok
      ensures n == |EmitEntries(h, order).bytes|
    {
      ghost var base := headerBuf;
      var remaining := h.Keys;
      ghost var visited: seq<Name> := [];
      n, ok := 0, true;
      NothingWritten(h, base);
      hide *;
      while remaining != {} && ok
        invariant Progress(h, remaining, visited, base, headerBuf, n, ok)
        decreases remaining
      {
        var name :| name in remaining;
        ghost var before := headerBuf;
        ProgressNext(h, remaining, visited, base, before, n, name);
        var m;
        m, ok := WriteEntry(name, h[name]);
        n := n + m;
        visited, remaining := visited + [name], remaining - {name};
      }
      order := visited + AnyOrder(remaining);
      AnyRestOfOrder(h, remaining, visited, base, headerBuf, n, ok);
    }

    /** The body of the loop over the map. */
    method WriteEntry(name: Name, values: Values) returns (n: nat, ok: bool)
      modifies this`headerBuf
      ensures headerBuf == old(headerBuf) + EmitEntry(name, Join(values))
      ensures n == |EmitEntry(name, Join(values))| && ok == Writable(name, Join(values))
    {
      ghost var start := headerBuf;
      assert start + [] == start;
      if |name| > MAX_INT_32 { return 0, false; }
      headerBuf := headerBuf + Be32(|name|);
      n := 4;
      headerBuf := headerBuf + Lower(name);
      n := n + |name|;
      assert headerBuf == start + (Be32(|name|) + Lower(name));
      var v := Join(values);
      if |v| > MAX_INT_32 { return n, false; }
      headerBuf := headerBuf + Be32(|v|);
      n := n + 4;
      headerBuf := headerBuf + v;
      n := n + |v|;
      assert headerBuf == start + (Be32(|name|) + Lower(name) + Be32(|v|) + v);
      ok := true;
    }

    method WriteSettings(h: Header, settings: seq<Setting>) returns (f: Frame, err: Option<Error>)
      modifies this`output
      ensures var e := EmitPlain(h, Settings(settings), headerBuf);
              output == old(output) + e.bytes && f == e.frame && err == e.err
    {
      EmitSettings(h, settings, headerBuf);
      hide EmitPlain, ControlHeader, SettingsBytes, Be32, Fields;
      ghost var start := output;
      assert start + [] == start;
      var header := h.(version := VERSION, frameType := TYPE_SETTINGS);
      var payloadLen := |settings| * 8 + 4;
      if payloadLen > MAX_DATA_LENGTH { return Control(header, Settings(settings)), Some(InvalidControlFrame(0)); }
      header := header.(length := payloadLen);
      WriteControlFrameHeader(header);
      Write(Be32(|settings|));
      WriteFlagIdValues(settings);
      Regroup(start, ControlHeader(header), Be32(|settings|), SettingsBytes(settings));
      return Control(header, Settings(settings)), None;
    }

    /** The loop over the settings. */
    method WriteFlagIdValues(settings: seq<Setting>)
      modifies this`output
      ensures output == old(output) + SettingsBytes(settings)
    {
      ghost var base := output;
      assert base + [] == base;
      for i := 0 to |settings|
        invariant output == base + SettingsBytes(settings[..i])
      {
        assert settings[..i + 1][..i] == settings[..i];
        ghost var done := SettingsBytes(settings[..i]);
        ghost var id, value := Be32(FlagsAnd(settings[i].flag, settings[i].id)), Be32(settings[i].value);
        Write(Be32(FlagsAnd(settings[i].flag, settings[i].id)));
        Write(Be32(settings[i].value));
        assert base + done + id + value == base + (done + (id + value));
      }
      assert settings[..|settings|] == settings;
    }

    method WriteRstStream(h: Header, streamId: uint32, status: uint32) returns (f: Frame, err: Option<Error>)
      modifies this`output
      ensures var e := EmitPlain(h, RstStream(streamId, status), headerBuf);
              output == old(output) + e.bytes && f == e.frame && err == e.err
    {
      ghost var start := output;
      if streamId == 0 {
        assert start + [] == start;
        return Control(h, RstStream(streamId, status)), Some(ZeroStreamId);
      }
      var header := Header(VERSION, TYPE_RST_STREAM, 0, 8);
      f := Control(header, RstStream(streamId, status));
      WriteControlFrameHeader(header);
      Write(Be32(streamId));
      if status == 0 {
        assert output == start + (ControlHeader(header) + Be32(streamId));
        return f, Some(InvalidControlFrame(streamId));
      }
      Write(Be32(status));
      assert output == start + (ControlHeader(header) + (Be32(streamId) + Be32(status)));
      err := None;
    }

    method WritePing(h: Header, id: uint32) returns (f: Frame, err: Option<Error>)
      modifies this`output
      ensures var e := EmitPlain(h, Ping(id), headerBuf);
              output == old(output) + e.bytes && f == e.frame && err == e.err
    {
      ghost var start := output;
      if id == 0 {
        assert start + [] == start;
        return Control(h, Ping(id)), Some(ZeroStreamId);
      }
      var header := Header(VERSION, TYPE_PING, 0, 4);
      WriteControlFrameHeader(header);
      Write(Be32(id));
      assert output == start + (ControlHeader(header) + Be32(id));
      return Control(header, Ping(id)), None;
    }

    /** The write methods of GOAWAY and WINDOW_UPDATE: two words, no checks. */
    method WriteWords(h: Header, b: Body) returns (f: Frame, err: Option<Error>)
      requires b.GoAway? || b.WindowUpdate?
      modifies this`output
      ensures var e := EmitPlain(h, b, headerBuf);
              output == old(output) + e.bytes && f == e.frame && err == e.err
    {
      ghost var start := output;
      var header := Header(VERSION, TypeOf(b), 0, 8);
      WriteControlFrameHeader(header);
      match b {
        case GoAway(lastGood, status) =>
          Write(Be32(lastGood));
          Write(Be32(status));
        case WindowUpdate(id, delta) =>
          Write(Be32(id));
          Write(Be32(delta));
      }
      assert output == start + (ControlHeader(header) + Fields(b));
      return Control(header, b), None;
    }

    method WriteFields(b: Body)
      requires b.HasHeaders()
      modifies this`output
      ensures output == old(output) + Fields(b)
    {
      ghost var start := output;
      Write(Be32(b.streamId));
      if b.SynStream? {
        Write(Be32(b.associated));
        Write([b.priority * 32 % 256]);
        Write([b.slot]);
        assert output == start + (Be32(b.streamId) + (Be32(b.associated) + [b.priority * 32 % 256, b.slot]));
      }
    }

    /** writeSynStreamFrame, writeSynReplyFrame and writeHeadersFrame. */
    method WriteWithHeaders(h: Header, b: Body) returns (f: Frame, err: Option<Error>, ghost order: seq<Name>)
      requires b.HasHeaders()
      modifies this
      ensures IsOrder(order, b.headers)
      ensures var e := EmitWithHeaders(h, b, old(headerBuf), order);
              output == old(output) + e.bytes && headerBuf == e.buf && f == e.frame && err == e.err
    {
      assert output + [] == output;
      if b.streamId == 0 { return Control(h, b), Some(ZeroStreamId), AnyOrder(b.headers.Keys); }
      var n, ok;
      n, ok, order := WriteHeaderValueBlock(b.headers);
      if ok {
        f, err := SendWithHeaders(h, b);
      } else {
        f, err := Control(h, b), Some(InvalidControlFrame(0));
      }
    }

    /** The part of those methods behind the marshalling of the headers. */
    method SendWithHeaders(h: Header, b: Body) returns (f: Frame, err: Option<Error>)
      requires b.HasHeaders()
      modifies this
      ensures var e := EmitMarshalled(h, b, old(headerBuf));
              output == old(output) + e.bytes && headerBuf == e.buf && f == e.frame && err == e.err
    {
      ghost var start := output;
      assert start + [] == start;
      var header := h.(version := VERSION, frameType := TypeOf(b));
      assert |Fields(b)| == if b.SynStream? then 10 else 4;
      hide ControlHeader, Fields;
      var hLen := |headerBuf| + (if b.SynStream? then 10 else 4);
      if hLen > MAX_DATA_LENGTH { return Control(header, b), Some(InvalidControlFrame(0)); }
      header := header.(length := hLen);
      WriteControlFrameHeader(header);
      WriteFields(b);
      Write(headerBuf);
      Regroup(start, ControlHeader(header), Fields(b), headerBuf);
      headerBuf := [];
      return Control(header, b), None;
    }

    method WriteDataFrame(id: uint32, flags: byte, data: seq<byte>) returns (err: Option<Error>)
      modifies this`output
      ensures var e := EmitData(id, flags, data, headerBuf);
              output == old(output) + e.bytes && err == e.err
    {
      ghost var start := output;
      assert start + [] == start;
      if id == 0 { return Some(ZeroStreamId); }
      if id >= 0x8000_0000 || |data| > MAX_DATA_LENGTH { return Some(InvalidDataFrame(id)); }
      Write(Be32(id));
      Write(Be32(FlagsAnd(flags, |data|)));
      Write(data);
      assert output == start + (Be32(id) + Be32(FlagsAnd(flags, |data|)) + data);
      return None;
    }

    method WriteFrame(frame: Frame) returns (f: Frame, err: Option<Error>, ghost order: seq<Name>)
      modifies this
      ensures OrderFor(frame, order)
      ensures var e := Emit(frame, old(headerBuf), order);
              output == old(output) + e.bytes && headerBuf == e.buf && f == e.frame && err == e.err
    {
      f, order := frame, [];
      match frame {
        case Data(id, flags, data) => err := WriteDataFrame(id, flags, data);
        case Control(h, b) =>
          match b {
            case RstStream(id, status) => f, err := WriteRstStream(h, id, status);
            case Settings(settings) => f, err := WriteSettings(h, settings);
            case Ping(id) => f, err := WritePing(h, id);
            case GoAway(_, _) => f, err := WriteWords(h, b);
            case WindowUpdate(_, _) => f, err := WriteWords(h, b);
            case _ => f, err, order := WriteWithHeaders(h, b);
          }
      }
    }
  }

  // -------------------------------------------------------------------------
  // Orders of map iteration

  ghost function AnyOrder(names: set<Name>): (order: seq<Name>)
    ensures Visits(order, names)
    decreases |names|
  {
    if names == {} then []
    else
      var name :| name in names;
      var rest := AnyOrder(names - {name});
      assert forall k | k in rest :: k != name;
      [name] + rest
  }

  lemma EmitSettings(h: Header, settings: seq<Setting>, buf: seq<byte>)
    ensures var h1 := h.(version := VERSION, frameType := TYPE_SETTINGS);
            var length := |settings| * 8 + 4;
            EmitPlain(h, Settings(settings), buf) ==
              if length > MAX_DATA_LENGTH
              then Emission([], Control(h1, Settings(settings)), buf, Some(InvalidControlFrame(0)))
              else
                var h2 := h1.(length := length);
                Emission(ControlHeader(h2) + (Be32(|settings|) + SettingsBytes(settings)),
                         Control(h2, Settings(settings)), buf, None)
  {
    SettingsFields(settings);
    hide ControlHeader, SettingsBytes, Be32, Fields;
  }

  lemma SettingsFields(settings: seq<Setting>)
    ensures |Fields(Settings(settings))| == |settings| * 8 + 4
    ensures |settings| < 0x1_0000_0000 ==>
              Fields(Settings(settings)) == Be32(|settings|) + SettingsBytes(settings)
  {
    hide SettingsBytes, Be32;
  }

  lemma Regroup(start: seq<byte>, a: seq<byte>, b: seq<byte>, c: seq<byte>)
    ensures start + a + b + c == start + (a + (b + c))
    ensures start + a + b + c == start + (a + b + c)
  {}

  /** The names visited so far are written behind base. */
  ghost predicate Written(h: Headers, visited: seq<Name>, base: seq<byte>, buf: seq<byte>, n: nat, ok: bool) {
    && buf == base + EmitEntries(h, visited).bytes
    && n == |EmitEntries(h, visited).bytes|
    && ok == EmitEntries(h, visited).ok
  }

  lemma WrittenNext(h: Headers, visited: seq<Name>, base: seq<byte>, buf: seq<byte>, n: nat, name: Name)
    requires name in h && Written(h, visited, base, buf, n, true)
    ensures var entry := EmitEntry(name, Join(h[name]));
            Written(h, visited + [name], base, buf + entry, n + |entry|, Writable(name, Join(h[name])))
  {
    hide EmitEntry, EmitEntries, Join;
    EmitNext(h, visited, name);
    assert base + EmitEntries(h, visited).bytes + EmitEntry(name, Join(h[name]))
        == base + (EmitEntries(h, visited).bytes + EmitEntry(name, Join(h[name])));
  }

  lemma VisitsNext(visited: seq<Name>, names: set<Name>, remaining: set<Name>, name: Name)
    requires remaining <= names && name in remaining && Visits(visited, names - remaining)
    ensures Visits(visited + [name], names - (remaining - {name}))
  {
    assert names - (remaining - {name}) == (names - remaining) + {name};
    forall i | 0 <= i < |visited| ensures visited[i] != name { assert visited[i] in visited; }
  }

  /** Where the loop over the map is. */
  ghost predicate Progress(h: Headers, remaining: set<Name>, visited: seq<Name>, base: seq<byte>, buf: seq<byte>,
                           n: nat, ok: bool) {
    remaining <= h.Keys && Visits(visited, h.Keys - remaining) && Written(h, visited, base, buf, n, ok)
  }

  lemma NothingWritten(h: Headers, base: seq<byte>)
    ensures Progress(h, h.Keys, [], base, base, 0, true)
  {
    assert base + [] == base && h.Keys - h.Keys == {};
  }

  lemma ProgressNext(h: Headers, remaining: set<Name>, visited: seq<Name>, base: seq<byte>, buf: seq<byte>,
                     n: nat, name: Name)
    requires name in remaining && Progress(h, remaining, visited, base, buf, n, true)
    ensures name in h
    ensures var entry := EmitEntry(name, Join(h[name]));
            Progress(h, remaining - {name}, visited + [name], base, buf + entry, n + |entry|,
                     Writable(name, Join(h[name])))
  {
    hide Visits, Written, EmitEntry, Join, Writable;
    VisitsNext(visited, h.Keys, remaining, name);
    WrittenNext(h, visited, base, buf, n, name);
  }

  lemma VisitsRest(visited: seq<Name>, names: set<Name>, remaining: set<Name>)
    requires remaining <= names && Visits(visited, names - remaining)
    ensures Visits(visited + AnyOrder(remaining), names)
  {
    var rest := AnyOrder(remaining);
    var order := visited + rest;
    assert names == (names - remaining) + remaining;
    forall i, j | 0 <= i < j < |order| ensures order[i] != order[j] {
      if i < |visited| <= j { assert order[i] in visited && order[j] in rest; }
    }
  }

  /** The visited names, then the others in any order: the others make no difference if there
      are none or writing has failed. */
  lemma AnyRestOfOrder(h: Headers, remaining: set<Name>, visited: seq<Name>, base: seq<byte>, buf: seq<byte>,
                       n: nat, ok: bool)
    requires Progress(h, remaining, visited, base, buf, n, ok)
    requires remaining == {} || !ok
    ensures var order := visited + AnyOrder(remaining);
            && IsOrder(order, h)
            && EmitEntries(h, order) == EmitEntries(h, visited)
            && buf == base + EmitEntries(h, order).bytes && n == |EmitEntries(h, order).bytes|
            && ok == EmitEntries(h, order).ok
  {
    VisitsRest(visited, h.Keys, remaining);
    if remaining == {} {
      assert visited + AnyOrder(remaining) == visited;
    } else {
      EmitStops(h, visited, visited + AnyOrder(remaining));
    }
  }

  /** Once writing has failed, the names not yet visited make no difference. */
  lemma {:induction false} EmitStops(h: Headers, failed: seq<Name>, order: seq<Name>)
    requires failed <= order && !EmitEntries(h, failed).ok
    ensures EmitEntries(h, order) == EmitEntries(h, failed)
    decreases |order|
  {
    if order != failed { EmitStops(h, failed, order[..|order| - 1]); }
  }
}
