/** When parseHeaderValueBlock refuses a block for its names. The duplicate test looks up the
    lower-case name, but http.Header.Add stores the canonical one. */
module HeaderNames {
  import opened Options
  import opened Bytes
  import opened Frames
  import opened HeaderBlock

  type Entries = seq<(seq<byte>, seq<byte>)>

  /** Some entry has this name, up to the case of its letters. */
  ghost predicate Named(entries: Entries, name: Name) {
    exists j | 0 <= j < |entries| :: Lower(entries[j].0) == Lower(name)
  }

  lemma NamedNext(before: Entries, raw: Name, v: seq<byte>, name: Name)
    ensures Named(before + [(raw, v)], name) <==> Named(before, name) || Lower(raw) == Lower(name)
  {
    var all := before + [(raw, v)];
    if Named(before, name) {
      var j :| 0 <= j < |before| && Lower(before[j].0) == Lower(name);
      assert all[j] == before[j];
    }
    assert all[|before|].0 == raw;
    if Named(all, name) {
      var j :| 0 <= j < |all| && Lower(all[j].0) == Lower(name);
      assert j < |before| ==> all[j] == before[j];
    }
  }

  /** What the duplicate test finds: a repeated name, but only one whose lower-case form is its
      canonical form. */
  lemma {:induction false} DuplicateTest(entries: Entries, name: Name)
    ensures Lower(name) in Collect(entries) <==> Named(entries, name) && Canonical(Lower(name)) == Lower(name)
  {
    if entries != [] {
      var before := entries[..|entries| - 1];
      var (raw, v) := entries[|entries| - 1];
      assert entries == before + [(raw, v)];
      hide Canonical, Lower, Split, AddAll, Named;
      DuplicateTest(before, name);
      NamedNext(before, raw, v, name);
      CollectNext(before, raw, v, 0);
      AddedKeys(Collect(before), Lower(raw), Split(v));
      KeyIsLower(raw, name);
    }
  }

  lemma AddedKeys(h: Headers, name: Name, values: Values)
    ensures AddAll(h, name, values).Keys == h.Keys + {Canonical(name)}
  {
    hide Canonical;
  }

  /** The key of one name is the lower-case form of another. */
  lemma KeyIsLower(raw: Name, name: Name)
    ensures Canonical(Lower(raw)) == Lower(name)
            <==> Lower(raw) == Lower(name) && Canonical(Lower(name)) == Lower(name)
  {
    LowerCanonical(Lower(raw));
    LowerTwice(raw);
    LowerTwice(name);
  }

  // -------------------------------------------------------------------------
  // Which blocks are accepted

  /** The names are lower-case, and none that is its own canonical form is repeated. */
  ghost predicate Acceptable(entries: Entries) {
    && (forall i | 0 <= i < |entries| :: entries[i].0 == Lower(entries[i].0))
    && (forall i, j | 0 <= i < j < |entries| && entries[i].0 == entries[j].0 :: Canonical(entries[j].0) != entries[j].0)
  }

  lemma AcceptableNext(before: Entries, raw: Name, v: seq<byte>)
    ensures Acceptable(before + [(raw, v)])
            <==> Acceptable(before) && raw == Lower(raw) && !(Named(before, raw) && Canonical(Lower(raw)) == Lower(raw))
  {
    hide Lower, Canonical;
    var all := before + [(raw, v)];
    assert all[|before|].0 == raw;
    assert forall j | 0 <= j < |before| :: all[j] == before[j];
    if Named(before, raw) && Canonical(Lower(raw)) == Lower(raw) { RepeatIsRefused(before, raw, v); }
  }

  lemma RepeatIsRefused(before: Entries, raw: Name, v: seq<byte>)
    requires Named(before, raw) && Canonical(Lower(raw)) == Lower(raw)
    ensures !Acceptable(before + [(raw, v)])
  {
    hide Lower, Canonical;
    var all, n := before + [(raw, v)], |before|;
    var j :| 0 <= j < n && Lower(before[j].0) == Lower(raw);
    assert all[j].0 == before[j].0 && all[n].0 == raw;
    if all[j].0 == Lower(all[j].0) && all[n].0 == Lower(all[n].0) { assert all[j].0 == all[n].0; }
  }

  lemma {:induction false} NoErrorExactly(entries: Entries, id: uint32)
    ensures LastError(entries, id) == None <==> Acceptable(entries)
  {
    if entries != [] {
      var before := entries[..|entries| - 1];
      var (raw, v) := entries[|entries| - 1];
      assert entries == before + [(raw, v)];
      hide Canonical, Lower, Named, Acceptable, Collect, LastError;
      NoErrorExactly(before, id);
      AcceptableNext(before, raw, v);
      CollectNext(before, raw, v, id);
      DuplicateTest(before, raw);
    }
  }

  /** A block whose entries can be read, and of which there are not too many, is accepted if and
      only if its names are lower-case and none that is its own canonical form is repeated:
      repeats of other names are merged. Names are taken to be ASCII. */
  lemma AcceptedExactly(s: seq<byte>, entries: Entries, rest: seq<byte>, maxHeaders: uint32, maxField: uint32,
                        id: uint32)
    requires var n := Take32(s);
             && n.Got? && n.value <= maxHeaders
             && ParseEntries(n.rest, n.value, maxField, id) == Got(entries, rest)
    requires forall entry | entry in entries :: Ascii(entry.0)
    ensures ParseBlock(s, maxHeaders, maxField, id).Got? <==> Acceptable(entries)
  {
    hide Take32, ParseEntries, LastError, Collect, Acceptable;
    NoErrorExactly(entries, id);
  }

  // -------------------------------------------------------------------------
  // A repeated name that is accepted, and one that is not

  /** The block with the one-letter name c twice, with values 1 and 2. */
  function Twice(c: byte): seq<byte> {
    Be32(2) + (EmitEntry([c], [1]) + EmitEntry([c], [2]))
  }

  function TwiceEntries(c: byte): Entries {
    [([c], [1]), ([c], [2])]
  }

  lemma TwiceParses(c: byte, maxField: uint32, id: uint32)
    requires 1 <= maxField && Lower([c]) == [c]
    ensures var n := Take32(Twice(c));
            && n.Got? && n.value == 2
            && ParseEntries(n.rest, 2, maxField, id) == Got(TwiceEntries(c), [])
  {
    hide ParseEntry, EmitEntry, Take32, Lower;
    var first, second := EmitEntry([c], [1]), EmitEntry([c], [2]);
    Take32Of(2, first + second);
    ParseEmittedEntry([c], [1], second, maxField, id);
    assert second + [] == second;
    ParseEmittedEntry([c], [2], [], maxField, id);
    assert ParseEntries(first + second, 0, maxField, id) == Got([], first + second);
    ParseNext(first + second, 0, [], first + second, ([c], [1]), second, maxField, id);
    ParseNext(first + second, 1, [] + [([c], [1])], second, ([c], [2]), [], maxField, id);
    assert [] + [([c], [1])] + [([c], [2])] == TwiceEntries(c);
  }

  lemma SmallA()
    ensures Lower(['a' as int]) == ['a' as int] && Canonical(['a' as int]) == ['A' as int]
  {
    var a: byte := 'a' as int;
    assert [a][1..] == [];
  }

  /** Name a twice is accepted, because it is stored under A: both values end up there. */
  lemma RepeatedNameIsMerged(id: uint32)
    ensures ParseBlock(Twice('a' as int), 2, 1, id) == Got(map[['A' as int] := [[1], [2]]], [])
  {
    hide ParseEntries, Canonical, Lower, Take32, LastError, Collect, Acceptable, Twice;
    var a: byte := 'a' as int;
    SmallA();
    TwiceParses(a, 1, id);
    TwiceIsAcceptable(a);
    NoErrorExactly(TwiceEntries(a), id);
    TwiceCollects();
  }

  lemma TwiceIsAcceptable(c: byte)
    requires Lower([c]) == [c] && Canonical([c]) != [c]
    ensures Acceptable(TwiceEntries(c))
  {
    hide Lower, Canonical;
  }

  lemma TwiceCollects()
    ensures Collect(TwiceEntries('a' as int)) == map[['A' as int] := [[1], [2]]]
  {
    hide Collect, Lower, Canonical, Split;
    var a: byte := 'a' as int;
    SmallA();
    SplitOne([1]);
    SplitOne([2]);
    CollectNext([], [a], [1], 0);
    CollectNext([] + [([a], [1])], [a], [2], 0);
    assert [] + [([a], [1])] + [([a], [2])] == TwiceEntries(a);
    NothingCollected();
    assert [] + [[1]] == [[1]] && [[1]] + [[2]] == [[1], [2]];
  }

  lemma NothingCollected()
    ensures Collect([]) == map[]
  {}

  /** Name 1 twice is refused. */
  lemma RepeatedNameIsRefused(id: uint32)
    ensures ParseBlock(Twice('1' as int), 2, 1, id).Failed?
  {
    var a: byte := '1' as int;
    assert Lower([a]) == [a] by { assert [a][1..] == []; }
    assert Canonical([a]) == [a] by { assert [a][1..] == []; }
    TwiceParses(a, 1, id);
    hide ParseBlock, ParseEntries, Canonical, Lower;
    AcceptedExactly(Twice(a), TwiceEntries(a), [], 2, 1, id);
    assert TwiceEntries(a)[0].0 == TwiceEntries(a)[1].0;
  }
}
