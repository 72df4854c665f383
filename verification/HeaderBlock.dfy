/** The name/value header block, section 2.6.10 of SPDY/3, as writeHeaderValueBlock writes it and
    parseHeaderValueBlock reads it, without compression. */
module HeaderBlock {
  import opened Options
  import opened Bytes
  import opened Frames

  // -------------------------------------------------------------------------
  // Names: strings.ToLower and the canonical form that http.Header.Add stores

  /** The names on which Lower is strings.ToLower, which maps other bytes as Unicode does. What is
      stated of names is stated of these. */
  predicate Ascii(name: Name) {
    forall c | c in name :: c < 0x80
  }

  predicate AsciiNames(h: Headers) {
    forall k | k in h :: Ascii(k)
  }

  predicate IsUpper(c: byte) { 'A' as int <= c <= 'Z' as int }
  predicate IsLower(c: byte) { 'a' as int <= c <= 'z' as int }

  function LowerByte(c: byte): byte { if IsUpper(c) then c + 32 else c }
  function UpperByte(c: byte): byte { if IsLower(c) then c - 32 else c }

  function Lower(s: Name): (r: Name)
    ensures |r| == |s|
  {
    if s == [] then [] else [LowerByte(s[0])] + Lower(s[1..])
  }

  /** The bytes of which a header name may consist, RFC 7230 section 3.2.6. */
  predicate IsTokenByte(c: byte) {
    || IsUpper(c) || IsLower(c) || '0' as int <= c <= '9' as int
    || c in {0x21, 0x23, 0x24, 0x25, 0x26, 0x27, 0x2a, 0x2b, 0x2d, 0x2e, 0x5e, 0x5f, 0x60, 0x7c, 0x7e}
  }

  /** Upper case at the start and behind each hyphen, lower case elsewhere. */
  function Capitalize(s: Name, first: bool): (r: Name)
    ensures |r| == |s|
  {
    if s == [] then []
    else
      [if first then UpperByte(s[0]) else LowerByte(s[0])] + Capitalize(s[1..], s[0] == '-' as int)
  }

  /** textproto.CanonicalMIMEHeaderKey: names with a byte outside the token set stay as they are. */
  function Canonical(s: Name): Name {
    if forall i | 0 <= i < |s| :: IsTokenByte(s[i]) then Capitalize(s, true) else s
  }

  lemma {:induction false} LowerCapitalize(s: Name, first: bool)
    ensures Lower(Capitalize(s, first)) == Lower(s)
  {
    if s != [] {
      LowerCapitalize(s[1..], s[0] == '-' as int);
      assert Capitalize(s, first)[1..] == Capitalize(s[1..], s[0] == '-' as int);
    }
  }

  lemma LowerCanonical(s: Name)
    ensures Lower(Canonical(s)) == Lower(s)
  {
    LowerCapitalize(s, true);
  }

  lemma {:induction false} LowerTwice(s: Name)
    ensures Lower(Lower(s)) == Lower(s)
  {
    if s != [] {
      LowerTwice(s[1..]);
      assert Lower(s)[1..] == Lower(s[1..]);
    }
  }

  /** What a name becomes on its way over the wire. */
  function WireName(s: Name): Name { Canonical(Lower(s)) }

  lemma WireNameTwice(s: Name)
    ensures WireName(WireName(s)) == WireName(s) && Lower(WireName(s)) == Lower(s)
  {
    LowerCanonical(Lower(s));
    LowerTwice(s);
  }

  // -------------------------------------------------------------------------
  // Values: strings.Join and strings.Split with the separator NUL

  function Join(values: Values): seq<byte> {
    if values == [] then []
    else if |values| == 1 then values[0]
    else values[0] + [0] + Join(values[1..])
  }

  function Split(s: seq<byte>): (r: Values)
    ensures r != []
  {
    if s == [] then [[]]
    else
      var tail := Split(s[1..]);
      if s[0] == 0 then [[]] + tail else [[s[0]] + tail[0]] + tail[1..]
  }

  ghost predicate NulFree(s: seq<byte>) { 0 !in s }

  /** Non-empty, and no value contains the separator. */
  ghost predicate Splittable(values: Values) {
    values != [] && forall v | v in values :: NulFree(v)
  }

  lemma {:induction false} SplitOne(s: seq<byte>)
    requires NulFree(s)
    ensures Split(s) == [s]
  {
    if s != [] {
      SplitOne(s[1..]);
      assert [s[0]] + s[1..] == s;
    }
  }

  lemma {:induction false} SplitAtNul(s: seq<byte>, rest: seq<byte>)
    requires NulFree(s)
    ensures Split(s + [0] + rest) == [s] + Split(rest)
  {
    var all := s + [0] + rest;
    if s == [] {
      assert all[1..] == rest;
    } else {
      SplitAtNul(s[1..], rest);
      assert all[1..] == s[1..] + [0] + rest;
      assert [s[0]] + s[1..] == s;
    }
  }

  lemma {:induction false} SplitJoin(values: Values)
    requires Splittable(values)
    ensures Split(Join(values)) == values
  {
    if |values| == 1 {
      SplitOne(values[0]);
    } else {
      assert Splittable(values[1..]);
      SplitJoin(values[1..]);
      SplitAtNul(values[0], Join(values[1..]));
    }
  }

  lemma {:induction false} SplitIsSplittable(s: seq<byte>)
    ensures Splittable(Split(s))
  {
    if s != [] {
      var tail := Split(s[1..]);
      SplitIsSplittable(s[1..]);
      assert NulFree(tail[0]);
    }
  }

  /** A value list survives joining and splitting exactly when it is splittable. */
  lemma SplitJoinExact(values: Values)
    ensures Split(Join(values)) == values <==> Splittable(values)
  {
    SplitIsSplittable(Join(values));
    if Splittable(values) { SplitJoin(values); }
  }

  // -------------------------------------------------------------------------
  // Writing

  /** The bytes written, and whether the call succeeds. */
  datatype Emitted = Emitted(bytes: seq<byte>, ok: bool)

  /** The names, each once, in some order. */
  ghost predicate Visits(order: seq<Name>, names: set<Name>) {
    && |order| == |names|
    && (forall i, j | 0 <= i < j < |order| :: order[i] != order[j])
    && (forall k | k in names :: k in order)
    && (forall k | k in order :: k in names)
  }

  /** One of the orders in which a loop over the map can visit its names. */
  ghost predicate IsOrder(order: seq<Name>, h: Headers) {
    Visits(order, h.Keys)
  }

  predicate Writable(name: Name, v: seq<byte>) {
    |name| <= MAX_INT_32 && |v| <= MAX_INT_32
  }

  /** What is written for one header; nothing behind a length that is too large. */
  function EmitEntry(name: Name, v: seq<byte>): seq<byte> {
    if |name| > MAX_INT_32 then []
    else if |v| > MAX_INT_32 then Be32(|name|) + Lower(name)
    else Be32(|name|) + Lower(name) + Be32(|v|) + v
  }

  /** The joined values of a name; only names in the map are asked for. */
  function JoinedValues(h: Headers, name: Name): seq<byte> {
    if name in h then Join(h[name]) else []
  }

  function EmitEntries(h: Headers, order: seq<Name>): Emitted {
    if order == [] then Emitted([], true)
    else
      var done := EmitEntries(h, order[..|order| - 1]);
      var name := order[|order| - 1];
      var v := JoinedValues(h, name);
      if done.ok then Emitted(done.bytes + EmitEntry(name, v), Writable(name, v)) else done
  }

  /** writeHeaderValueBlock, for a given order of the names. */
  function EmitBlock(h: Headers, order: seq<Name>): Emitted {
    if |h| > MAX_INT_32 then Emitted([], false)
    else
      var entries := EmitEntries(h, order);
      Emitted(Be32(|h|) + entries.bytes, entries.ok)
  }

  // -------------------------------------------------------------------------
  // Reading

  /** A length, checked against the limit, and as many bytes. */
  function ParseField(s: seq<byte>, maxField: uint32, id: uint32): Parsed<seq<byte>> {
    var (length, s1) :- Take32(s);
    if length > maxField then Failed(InvalidControlFrame(id), s1) else TakeBytes(s1, length)
  }

  /** The raw name and the raw value of the next entry. */
  function ParseEntry(s: seq<byte>, maxField: uint32, id: uint32): Parsed<(seq<byte>, seq<byte>)> {
    var (name, s1) :- ParseField(s, maxField, id);
    var (value, s2) :- ParseField(s1, maxField, id);
    Got((name, value), s2)
  }

  /** The next n entries. */
  function ParseEntries(s: seq<byte>, n: nat, maxField: uint32, id: uint32): Parsed<seq<(seq<byte>, seq<byte>)>>
  {
    if n == 0 then Got([], s)
    else
      var (entries, s1) :- ParseEntries(s, n - 1, maxField, id);
      var (entry, s2) :- ParseEntry(s1, maxField, id);
      Got(entries + [entry], s2)
  }

  /** http.Header.Add for each value in turn. */
  function AddAll(h: Headers, name: Name, values: Values): Headers {
    var key := Canonical(name);
    h[key := (if key in h then h[key] else []) + values]
  }

  /** The map that the entries, taken in turn, build up. */
  function Collect(entries: seq<(seq<byte>, seq<byte>)>): Headers {
    if entries == [] then map[]
    else
      var (raw, v) := entries[|entries| - 1];
      AddAll(Collect(entries[..|entries| - 1]), Lower(raw), Split(v))
  }

  /** The error found in an entry, if any; a later one replaces an earlier one. The duplicate
      test looks the lower-case name up among canonical ones. */
  function EntryError(h: Headers, raw: Name, e: Option<Error>, id: uint32): Option<Error> {
    if Lower(raw) in h then Some(DuplicateHeaders(id))
    else if raw != Lower(raw) then Some(UnlowercasedHeaderName(id))
    else e
  }

  function LastError(entries: seq<(seq<byte>, seq<byte>)>, id: uint32): Option<Error> {
    if entries == [] then None
    else
      var before := entries[..|entries| - 1];
      EntryError(Collect(before), entries[|entries| - 1].0, LastError(before, id), id)
  }

  /** n entries as a map: bad names are reported once all entries are read. */
  function ParseMap(s: seq<byte>, n: nat, maxField: uint32, id: uint32): Parsed<Headers> {
    var (entries, rest) :- ParseEntries(s, n, maxField, id);
    var e := LastError(entries, id);
    if e.Some? then Failed(e.value, rest) else Got(Collect(entries), rest)
  }

  /** parseHeaderValueBlock. */
  function ParseBlock(s: seq<byte>, maxHeaders: uint32, maxField: uint32, id: uint32): Parsed<Headers> {
    var (n, rest) :- Take32(s);
    if n > maxHeaders then Failed(InvalidControlFrame(id), rest) else ParseMap(rest, n, maxField, id)
  }

  // -------------------------------------------------------------------------
  // Round trip

  /** Names in the form that comes off the wire, and value lists that can be split again. */
  ghost predicate InWireForm(h: Headers) {
    forall k | k in h :: WireName(k) == k && Splittable(h[k])
  }

  /** Names and value lists that come back from the wire unchanged. */
  ghost predicate Stable(h: Headers) {
    AsciiNames(h) && InWireForm(h)
  }

  predicate FieldFits(field: seq<byte>, maxField: uint32) {
    |field| <= maxField && |field| <= MAX_INT_32
  }

  /** The sizes that the reader allows, within what the writer can write. */
  ghost predicate Fits(h: Headers, maxHeaders: uint32, maxField: uint32) {
    && |h| <= maxHeaders && |h| <= MAX_INT_32
    && forall k | k in h :: FieldFits(k, maxField) && FieldFits(Join(h[k]), maxField)
  }

  lemma ParseEmittedEntry(name: Name, v: seq<byte>, rest: seq<byte>, maxField: uint32, id: uint32)
    requires FieldFits(name, maxField) && FieldFits(v, maxField)
    ensures ParseEntry(EmitEntry(name, v) + rest, maxField, id) == Got((Lower(name), v), rest)
  {
    ParseFieldOf(Lower(name), Be32(|v|) + v + rest, maxField, id);
    ParseFieldOf(v, rest, maxField, id);
    RegroupEntry(Be32(|name|), Lower(name), Be32(|v|), v, rest);
    hide ParseField, Be32, Lower;
  }

  lemma RegroupEntry(a: seq<byte>, b: seq<byte>, c: seq<byte>, d: seq<byte>, e: seq<byte>)
    ensures a + b + c + d + e == a + b + (c + d + e)
  {}

  lemma ParseFieldOf(field: seq<byte>, rest: seq<byte>, maxField: uint32, id: uint32)
    requires FieldFits(field, maxField)
    ensures ParseField(Be32(|field|) + field + rest, maxField, id) == Got(field, rest)
  {
    assert Be32(|field|) + field + rest == Be32(|field|) + (field + rest);
    Take32Of(|field|, field + rest);
    TakeBytesOf(field, rest);
  }

  /** The entries that stand on the wire for the names of order. */
  function WireEntries(h: Headers, order: seq<Name>): (r: seq<(seq<byte>, seq<byte>)>)
    ensures |r| == |order|
  {
    if order == [] then []
    else
      var name := order[|order| - 1];
      WireEntries(h, order[..|order| - 1]) + [(Lower(name), JoinedValues(h, name))]
  }

  lemma WireEntriesNext(h: Headers, order: seq<Name>, name: Name)
    ensures WireEntries(h, order + [name]) == WireEntries(h, order) + [(Lower(name), JoinedValues(h, name))]
  {
    assert (order + [name])[..|order|] == order;
  }

  lemma ParseNext(s: seq<byte>, n: nat, entries: seq<(seq<byte>, seq<byte>)>, s1: seq<byte>,
                  entry: (seq<byte>, seq<byte>), s2: seq<byte>, maxField: uint32, id: uint32)
    requires ParseEntries(s, n, maxField, id) == Got(entries, s1)
    requires ParseEntry(s1, maxField, id) == Got(entry, s2)
    ensures ParseEntries(s, n + 1, maxField, id) == Got(entries + [entry], s2)
  {}

  lemma EmitNext(h: Headers, order: seq<Name>, name: Name)
    ensures var done, v := EmitEntries(h, order), JoinedValues(h, name);
            done.ok ==> EmitEntries(h, order + [name]) == Emitted(done.bytes + EmitEntry(name, v), Writable(name, v))
  {
    assert (order + [name])[..|order|] == order;
  }

  lemma {:induction false} ParseEmittedEntries(h: Headers, order: seq<Name>, rest: seq<byte>, maxField: uint32,
                                               id: uint32)
    requires forall k | k in order :: FieldFits(k, maxField) && FieldFits(JoinedValues(h, k), maxField)
    ensures EmitEntries(h, order).ok
    ensures ParseEntries(EmitEntries(h, order).bytes + rest, |order|, maxField, id)
              == Got(WireEntries(h, order), rest)
  {
    if order == [] {
      assert [] + rest == rest;
    } else {
      var before, name := order[..|order| - 1], order[|order| - 1];
      assert name in order && order == before + [name];
      ParseEmittedEntries(h, before, EmitEntry(name, JoinedValues(h, name)) + rest, maxField, id);
      ParseEmittedNext(h, before, name, rest, maxField, id);
    }
  }

  lemma ParseEmittedNext(h: Headers, before: seq<Name>, name: Name, rest: seq<byte>, maxField: uint32, id: uint32)
    requires FieldFits(name, maxField) && FieldFits(JoinedValues(h, name), maxField)
    requires EmitEntries(h, before).ok
    requires var entry := EmitEntry(name, JoinedValues(h, name));
             ParseEntries(EmitEntries(h, before).bytes + (entry + rest), |before|, maxField, id)
               == Got(WireEntries(h, before), entry + rest)
    ensures var r := EmitEntries(h, before + [name]);
            && r.ok
            && ParseEntries(r.bytes + rest, |before| + 1, maxField, id) == Got(WireEntries(h, before + [name]), rest)
  {
    hide ParseEntry, ParseEntries, EmitEntries, WireEntries, EmitEntry, JoinedValues;
    var done, v := EmitEntries(h, before).bytes, JoinedValues(h, name);
    var entry := EmitEntry(name, v);
    EmitNext(h, before, name);
    assert done + entry + rest == done + (entry + rest);
    ParseEmittedEntry(name, v, rest, maxField, id);
    ParseNext(done + entry + rest, |before|, WireEntries(h, before), entry + rest, (Lower(name), v), rest,
              maxField, id);
    WireEntriesNext(h, before, name);
  }

  /** No lower-case name hits a canonical one that stands for another header. */
  lemma NoDuplicate(acc: Headers, name: Name)
    requires forall k | k in acc :: WireName(k) == k
    requires WireName(name) == name && name !in acc
    ensures Lower(name) !in acc
  {
    LowerTwice(name);
    assert WireName(Lower(name)) == WireName(name);
  }

  lemma CollectNext(entries: seq<(seq<byte>, seq<byte>)>, raw: Name, v: seq<byte>, id: uint32)
    ensures Collect(entries + [(raw, v)]) == AddAll(Collect(entries), Lower(raw), Split(v))
    ensures LastError(entries + [(raw, v)], id) == EntryError(Collect(entries), raw, LastError(entries, id), id)
  {
    var all := entries + [(raw, v)];
    assert all[..|all| - 1] == entries;
  }

  /** The wire form of a stable name adds the name with its values to a map without it. */
  lemma AddWireEntry(acc: Headers, name: Name, values: Values, id: uint32)
    requires WireName(name) == name && name !in acc && Splittable(values)
    requires forall k | k in acc :: WireName(k) == k
    ensures AddAll(acc, Lower(Lower(name)), Split(Join(values))) == acc[name := values]
    ensures EntryError(acc, Lower(name), None, id) == None
  {
    NoDuplicate(acc, name);
    LowerTwice(name);
    SplitJoin(values);
    assert [] + values == values;
  }

  /** h on the names of order. */
  function Restricted(h: Headers, order: seq<Name>): Headers {
    map k | k in order && k in h :: h[k]
  }

  lemma CollectWireNext(h: Headers, before: seq<Name>, name: Name, id: uint32)
    requires Stable(h) && name in h && name !in before
    requires Collect(WireEntries(h, before)) == Restricted(h, before)
    requires LastError(WireEntries(h, before), id) == None
    ensures Collect(WireEntries(h, before + [name])) == Restricted(h, before + [name])
    ensures LastError(WireEntries(h, before + [name]), id) == None
  {
    hide Collect, LastError, WireEntries, AddAll, EntryError, WireName, Join, Split, Lower;
    WireEntriesNext(h, before, name);
    CollectNext(WireEntries(h, before), Lower(name), Join(h[name]), id);
    AddWireEntry(Restricted(h, before), name, h[name], id);
  }

  lemma {:induction false} CollectWireEntries(h: Headers, order: seq<Name>, id: uint32)
    requires forall i, j | 0 <= i < j < |order| :: order[i] != order[j]
    requires Stable(h) && forall k | k in order :: k in h
    ensures Collect(WireEntries(h, order)) == Restricted(h, order)
    ensures LastError(WireEntries(h, order), id) == None
  {
    if order != [] {
      var before, name := order[..|order| - 1], order[|order| - 1];
      assert name in order && order == before + [name];
      CollectWireEntries(h, before, id);
      CollectWireNext(h, before, name, id);
    }
  }

  lemma AddKeepsForm(h: Headers, name: Name, values: Values)
    requires InWireForm(h) && WireName(Canonical(name)) == Canonical(name) && Splittable(values)
    ensures InWireForm(AddAll(h, name, values))
  {
    var key := Canonical(name);
    if key in h { assert Splittable(h[key] + values); }
  }

  /** Whatever is read is in wire form. */
  lemma {:induction false} CollectIsInForm(entries: seq<(seq<byte>, seq<byte>)>)
    ensures InWireForm(Collect(entries))
  {
    if entries != [] {
      var (raw, v) := entries[|entries| - 1];
      CollectIsInForm(entries[..|entries| - 1]);
      WireNameTwice(raw);
      SplitIsSplittable(v);
      AddKeepsForm(Collect(entries[..|entries| - 1]), Lower(raw), Split(v));
    }
  }

  /** Whatever block with ASCII names is read comes back when it is written and read again. */
  lemma ParsedIsStable(s: seq<byte>, maxHeaders: uint32, maxField: uint32, id: uint32)
    requires ParseBlock(s, maxHeaders, maxField, id).Got?
    requires AsciiNames(ParseBlock(s, maxHeaders, maxField, id).value)
    ensures Stable(ParseBlock(s, maxHeaders, maxField, id).value)
  {
    var n := Take32(s);
    CollectIsInForm(ParseEntries(n.rest, n.value, maxField, id).value);
  }

  lemma ParseBlockOf(n: uint32, s: seq<byte>, entries: seq<(seq<byte>, seq<byte>)>, rest: seq<byte>,
                     maxHeaders: uint32, maxField: uint32, id: uint32)
    requires n <= maxHeaders && ParseEntries(s, n, maxField, id) == Got(entries, rest)
    requires LastError(entries, id) == None
    ensures ParseBlock(Be32(n) + s, maxHeaders, maxField, id) == Got(Collect(entries), rest)
  {
    Take32Of(n, s);
  }

  lemma StableRoundTrip(h: Headers, order: seq<Name>, rest: seq<byte>, maxHeaders: uint32, maxField: uint32, id: uint32)
    requires IsOrder(order, h) && Fits(h, maxHeaders, maxField) && Stable(h)
    ensures EmitBlock(h, order).ok
    ensures ParseBlock(EmitBlock(h, order).bytes + rest, maxHeaders, maxField, id) == Got(h, rest)
  {
    EmitBlockBytes(h, order, rest);
    hide ParseEntries, EmitEntries, WireEntries, Collect, LastError, ParseBlock, EmitBlock, Be32;
    var bytes, entries := EmitEntries(h, order).bytes, WireEntries(h, order);
    ParseEmittedEntries(h, order, rest, maxField, id);
    CollectWireEntries(h, order, id);
    assert Restricted(h, order) == h;
    ParseBlockOf(|h|, bytes + rest, entries, rest, maxHeaders, maxField, id);
  }

  lemma EmitBlockBytes(h: Headers, order: seq<Name>, rest: seq<byte>)
    requires |h| <= MAX_INT_32
    ensures EmitBlock(h, order).bytes + rest == Be32(|h|) + (EmitEntries(h, order).bytes + rest)
    ensures EmitBlock(h, order).ok == EmitEntries(h, order).ok
  {
    hide EmitEntries, Be32;
    Associate(Be32(|h|), EmitEntries(h, order).bytes, rest);
  }

  // -------------------------------------------------------------------------
  // What is read back has fitted

  lemma FieldHasFitted(field: seq<byte>, rest: seq<byte>, maxField: uint32, id: uint32)
    requires |field| <= MAX_INT_32 && ParseField(Be32(|field|) + field + rest, maxField, id).Got?
    ensures FieldFits(field, maxField)
  {
    assert Be32(|field|) + field + rest == Be32(|field|) + (field + rest);
    Take32Of(|field|, field + rest);
  }

  lemma EntryHasFitted(name: Name, v: seq<byte>, rest: seq<byte>, maxField: uint32, id: uint32)
    requires Writable(name, v) && ParseEntry(EmitEntry(name, v) + rest, maxField, id).Got?
    ensures FieldFits(name, maxField) && FieldFits(v, maxField)
  {
    hide ParseField, Be32, Lower;
    RegroupEntry(Be32(|name|), Lower(name), Be32(|v|), v, rest);
    FieldHasFitted(Lower(name), Be32(|v|) + v + rest, maxField, id);
    ParseFieldOf(Lower(name), Be32(|v|) + v + rest, maxField, id);
    FieldHasFitted(v, rest, maxField, id);
  }

  ghost predicate AllFit(h: Headers, order: seq<Name>, maxField: uint32) {
    forall k | k in order :: FieldFits(k, maxField) && FieldFits(JoinedValues(h, k), maxField)
  }

  lemma AllFitNext(h: Headers, before: seq<Name>, name: Name, maxField: uint32)
    requires AllFit(h, before, maxField)
    requires FieldFits(name, maxField) && FieldFits(JoinedValues(h, name), maxField)
    ensures AllFit(h, before + [name], maxField)
  {
    hide FieldFits, JoinedValues;
  }

  lemma {:induction false} EntriesHaveFitted(h: Headers, order: seq<Name>, rest: seq<byte>, maxField: uint32,
                                             id: uint32)
    requires EmitEntries(h, order).ok
    requires ParseEntries(EmitEntries(h, order).bytes + rest, |order|, maxField, id).Got?
    ensures AllFit(h, order, maxField)
  {
    if order != [] {
      hide *;
      var before, name := order[..|order| - 1], order[|order| - 1];
      SplitLast(order);
      var tail := EmitEntry(name, JoinedValues(h, name)) + rest;
      EntriesBefore(h, before, name, rest, maxField, id);
      EntriesHaveFitted(h, before, tail, maxField, id);
      LastHasFitted(h, before, name, rest, maxField, id);
      AllFitNext(h, before, name, maxField);
    }
  }

  lemma SplitLast(order: seq<Name>)
    requires order != []
    ensures order == order[..|order| - 1] + [order[|order| - 1]] && |order| == |order[..|order| - 1]| + 1
  {}

  lemma EntriesBefore(h: Headers, before: seq<Name>, name: Name, rest: seq<byte>, maxField: uint32, id: uint32)
    requires EmitEntries(h, before + [name]).ok
    requires ParseEntries(EmitEntries(h, before + [name]).bytes + rest, |before| + 1, maxField, id).Got?
    ensures var p := ParseEntries(EmitEntries(h, before).bytes + (EmitEntry(name, JoinedValues(h, name)) + rest),
                                  |before|, maxField, id);
            && EmitEntries(h, before).ok && Writable(name, JoinedValues(h, name))
            && p.Got? && ParseEntry(p.rest, maxField, id).Got?
  {
    hide *;
    var order := before + [name];
    assert order[..|order| - 1] == before;
    EmitLast(h, order);
    ParseLast(EmitEntries(h, order).bytes + rest, |order|, maxField, id);
    Associate(EmitEntries(h, before).bytes, EmitEntry(name, JoinedValues(h, name)), rest);
  }

  lemma Associate(a: seq<byte>, b: seq<byte>, c: seq<byte>)
    ensures a + b + c == a + (b + c)
  {}

  lemma LastHasFitted(h: Headers, before: seq<Name>, name: Name, rest: seq<byte>, maxField: uint32, id: uint32)
    requires AllFit(h, before, maxField) && Writable(name, JoinedValues(h, name))
    requires var p := ParseEntries(EmitEntries(h, before).bytes + (EmitEntry(name, JoinedValues(h, name)) + rest),
                                   |before|, maxField, id);
             p.Got? && ParseEntry(p.rest, maxField, id).Got?
    ensures FieldFits(name, maxField) && FieldFits(JoinedValues(h, name), maxField)
  {
    hide FieldFits, JoinedValues, ParseEntry, EmitEntry, EmitEntries, ParseEntries, WireEntries;
    ParseEmittedEntries(h, before, EmitEntry(name, JoinedValues(h, name)) + rest, maxField, id);
    EntryHasFitted(name, JoinedValues(h, name), rest, maxField, id);
  }

  lemma EmitLast(h: Headers, order: seq<Name>)
    requires order != [] && EmitEntries(h, order).ok
    ensures var before, name := order[..|order| - 1], order[|order| - 1];
            var v := JoinedValues(h, name);
            && EmitEntries(h, before).ok && Writable(name, v)
            && EmitEntries(h, order).bytes == EmitEntries(h, before).bytes + EmitEntry(name, v)
  {
    hide EmitEntry, JoinedValues;
  }

  lemma ParseLast(s: seq<byte>, n: nat, maxField: uint32, id: uint32)
    requires 0 < n && ParseEntries(s, n, maxField, id).Got?
    ensures var p := ParseEntries(s, n - 1, maxField, id);
            p.Got? && ParseEntry(p.rest, maxField, id).Got?
  {
    hide ParseEntry;
  }

  lemma BlockHasFitted(h: Headers, order: seq<Name>, rest: seq<byte>, maxHeaders: uint32, maxField: uint32, id: uint32)
    requires IsOrder(order, h) && EmitBlock(h, order).ok
    requires ParseBlock(EmitBlock(h, order).bytes + rest, maxHeaders, maxField, id).Got?
    ensures Fits(h, maxHeaders, maxField)
  {
    hide ParseEntries, EmitEntries, LastError, Collect, FieldFits;
    EmitBlockBytes(h, order, rest);
    Take32Of(|h|, EmitEntries(h, order).bytes + rest);
    EntriesHaveFitted(h, order, rest, maxField, id);
    assert AllFit(h, order, maxField);
    forall k | k in h ensures FieldFits(k, maxField) && FieldFits(Join(h[k]), maxField) { assert k in order; }
  }

  /** The header block round trip, for every order in which the map is visited: it is written
      without error, and the reader gets back exactly the map and stops right behind it, if and
      only if the names are in the form that comes off the wire, the value lists can be split
      again, and everything is within the limits. */
  lemma BlockRoundTrip(h: Headers, order: seq<Name>, rest: seq<byte>, maxHeaders: uint32, maxField: uint32, id: uint32)
    requires IsOrder(order, h) && AsciiNames(h)
    ensures EmitBlock(h, order).ok
              && ParseBlock(EmitBlock(h, order).bytes + rest, maxHeaders, maxField, id) == Got(h, rest)
            <==> Stable(h) && Fits(h, maxHeaders, maxField)
  {
    hide *;
    var bytes := EmitBlock(h, order).bytes + rest;
    if Stable(h) && Fits(h, maxHeaders, maxField) {
      StableRoundTrip(h, order, rest, maxHeaders, maxField, id);
    } else if EmitBlock(h, order).ok && ParseBlock(bytes, maxHeaders, maxField, id) == Got(h, rest) {
      ParsedIsStable(bytes, maxHeaders, maxField, id);
      BlockHasFitted(h, order, rest, maxHeaders, maxField, id);
    }
  }
}
