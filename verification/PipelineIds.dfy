/** When a stream is added under the id of an earlier one, for a peer that may open streams under
    any id: connection.go does not look at the parity of an id that it accepts. */
module PipelineIds {
  import opened Options
  import opened StreamLife
  import opened Pipeline
  import opened PipelineLife
  import Q = StableQueue

  /** The peer has sent a stream frame with this id, and it was accepted. */
  ghost predicate Seen(s: State, x: Id) {
    exists f | f in s.read :: IsSyn(f) && f.id == x
  }

  /** The stream that the peer opened under this id was added. */
  ghost predicate Opened(s: State, x: Id) {
    Seen(s, x) && !(s.reader.Adding? && s.reader.syn.id == x)
  }

  /** The endpoint has given this id to a stream of its own. */
  predicate Drawn(s: State, x: Id) {
    x % 2 == s.next % 2 && 1 <= x < s.next
  }

  ghost predicate IdsInv(s: State, x: Id) {
    && 1 <= s.next && 1 <= s.received
    && (Seen(s, x) ==> x < s.received)
    && (s.reader.Adding? ==>
          && s.reader.syn in s.read
          && 1 <= s.reader.syn.id && s.reader.syn.id + 2 == s.received
          && (Opened(s, x) ==> x < s.reader.syn.id))
    && (At(s, x).registered <==> Drawn(s, x) || Opened(s, x))
  }

  lemma IdsRead(s: State, f: Frame, x: Id)
    requires IdsInv(s, x) && Enabled(s, Read(f))
    ensures IdsInv(Apply(s, Read(f)), x)
  {
    var s1 := Apply(s, Read(f));
    assert Seen(s1, x) <==> Seen(s, x) || (s1.reader.Adding? && s1.reader.syn.id == x) by {
      if Seen(s, x) {
        var g :| g in s.read && IsSyn(g) && g.id == x;
        assert g in s1.read;
      }
      if s1.reader.Adding? { assert f in s1.read; }
    }
    hide Seen, Drawn;
  }

  lemma IdsBirth(s: State, a: Action, x: Id)
    requires IdsInv(s, x) && Enabled(s, a) && (a.Add? || a.Create?)
    ensures IdsInv(Apply(s, a), x)
  {
    hide Mine, Seen;
    if a.Add? { HandIsSeen(s); }
    assert Seen(Apply(s, a), x) == Seen(s, x) by { hide *; SameRead(s, a, x); }
  }

  lemma HandIsSeen(s: State)
    requires s.reader.Adding? && s.reader.syn in s.read
    ensures Seen(s, s.reader.syn.id)
  {}

  lemma SameRead(s: State, a: Action, x: Id)
    requires Enabled(s, a) && !a.Read?
    ensures Apply(s, a).read == s.read && Seen(Apply(s, a), x) == Seen(s, x)
  {
    hide Mine, At, Used, Handled, NextStage, CanUse, CanAdvance, Expired, Shut, Accepted, Created, Listed;
  }

  /** Only adding a stream registers one. */
  lemma SameRegistered(s: State, a: Action, x: Id)
    requires Enabled(s, a) && !a.Add? && !a.Create?
    ensures At(Apply(s, a), x).registered == At(s, x).registered
  {
    match a {
      case Use(y, u) =>
        UseIsLater(At(s, y), u);
        hide Used;
      case Advance(w, m) =>
        if s.lanes[w].worker.Busy? { HandledKeeps(s.lanes[w].worker.frame, s.lanes[w].worker.stage, At(s, x), m); }
        hide Handled, NextStage, CanAdvance;
      case SweepOne(_) =>
      case EndSweep =>
      case Expire(_) =>
      case _ => SameStreams(s, a, x);
    }
  }

  lemma IdsRest(s: State, a: Action, x: Id)
    requires IdsInv(s, x) && Enabled(s, a) && !a.Read? && !a.Add? && !a.Create?
    ensures IdsInv(Apply(s, a), x)
  {
    hide Seen, At, Mine, Used, Handled, NextStage, CanUse, CanAdvance, Expired, Shut, Listed;
    SameRegistered(s, a, x);
    SameRead(s, a, x);
  }

  lemma {:induction false} IdsRun(server: bool, run: seq<Action>, x: Id)
    requires Run(server, run).Some?
    ensures IdsInv(Run(server, run).value, x)
  {
    if run != [] {
      var s, a := Run(server, run[..|run| - 1]).value, run[|run| - 1];
      hide IdsInv, Enabled, Apply;
      IdsRun(server, run[..|run| - 1], x);
      match a {
        case Read(f) => IdsRead(s, f, x);
        case Add => IdsBirth(s, a, x);
        case Create(_) => IdsBirth(s, a, x);
        case _ => IdsRest(s, a, x);
      }
    }
  }

  /** In every run, whatever the peer sends: a stream of the peer reuses the id of an earlier one
      exactly if the endpoint itself has given that id out. It replaces the earlier one in the
      table if that is still there. */
  lemma AddReusesExactly(server: bool, run: seq<Action>)
    requires Run(server, run).Some?
    ensures var s := Run(server, run).value;
            Enabled(s, Add) ==>
              var x := s.reader.syn.id;
              At(s, x).registered <==> x % 2 == s.next % 2 && x < s.next
  {
    var s := Run(server, run).value;
    if s.reader.Adding? { IdsRun(server, run, s.reader.syn.id); }
    hide Run, Seen, At;
  }

  /** In every run, whatever the peer sends: CreateStream reuses the id of an earlier stream
      exactly if the peer has opened one under the next id of the endpoint. */
  lemma CreateReusesExactly(server: bool, run: seq<Action>, fin: bool)
    requires Run(server, run).Some?
    ensures var s := Run(server, run).value;
            Enabled(s, Create(fin)) ==> (At(s, s.next).registered <==> Opened(s, s.next))
  {
    var s := Run(server, run).value;
    IdsRun(server, run, s.next);
    hide Run, Seen, At;
  }

  // -------------------------------------------------------------------------
  // A peer that keeps to its own ids

  /** next keeps its parity, and the peer has opened streams under its own ids only. */
  ghost predicate PoliteInv(s: State) {
    && s.next % 2 == 1 - PeerParity(s.server)
    && (s.reader.Adding? ==> s.reader.syn.id % 2 == PeerParity(s.server))
    && forall f | f in s.read && IsSyn(f) :: f.id % 2 == PeerParity(s.server)
  }

  lemma PoliteStep(s: State, a: Action)
    requires PoliteInv(s) && Enabled(s, a) && Polite(s.server, a)
    ensures PoliteInv(Apply(s, a))
  {
    hide Mine, At, Used, Handled, NextStage, CanUse, CanAdvance, Expired, Shut, Accepted, Created, Listed, Q.Insert;
  }

  lemma {:induction false} PoliteInvRun(server: bool, run: seq<Action>)
    requires Run(server, run).Some? && PoliteRun(server, run)
    ensures PoliteInv(Run(server, run).value)
  {
    if run != [] {
      PoliteInvRun(server, run[..|run| - 1]);
      hide PoliteInv, Enabled, Apply, Polite;
      PoliteStep(Run(server, run[..|run| - 1]).value, run[|run| - 1]);
    }
  }

  /** With a peer that opens its streams under ids of its own parity no id is used twice. */
  lemma {:induction false} PoliteIsFresh(server: bool, run: seq<Action>)
    requires Run(server, run).Some? && PoliteRun(server, run)
    ensures FreshRun(server, run)
  {
    if run != [] {
      var before, a := run[..|run| - 1], run[|run| - 1];
      hide Enabled, Apply, Fresh, PoliteInv;
      PoliteIsFresh(server, before);
      PoliteInvRun(server, before);
      AddReusesExactly(server, before);
      if a.Create? { CreateReusesExactly(server, before, a.fin); }
      PoliteIsFreshNow(Run(server, before).value, a);
    }
  }

  lemma PoliteIsFreshNow(s: State, a: Action)
    requires PoliteInv(s) && Enabled(s, a)
    requires a.Add? ==> (At(s, s.reader.syn.id).registered ==> s.reader.syn.id % 2 == s.next % 2)
    requires a.Create? ==> (At(s, s.next).registered ==> Opened(s, s.next))
    ensures Fresh(s, a)
  {
    hide At;
  }

  // -------------------------------------------------------------------------
  // A run in which a stream is replaced

  lemma RunStep(server: bool, run: seq<Action>, s: State, a: Action)
    requires Run(server, run) == Some(s) && Enabled(s, a)
    ensures Run(server, run + [a]) == Some(Apply(s, a))
  {
    hide Enabled, Apply;
    assert (run + [a])[..|run|] == run;
  }

  const INTRUDER: SynFrame := OnStream(2, Syn(0, false), false)

  /** A server creates stream 2, then the peer opens a stream 2 of its own: the table loses the
      first one, which is open and which nobody is about to close. */
  lemma StreamIsReplaced() returns (run: seq<Action>, s: State)
    ensures Run(true, run) == Some(s) && Enabled(s, Add) && s.reader.syn.id == 2
    ensures At(s, 2).registered && At(s, 2).listed && !Closed(At(s, 2)) && At(s, 2).removing == 0
    ensures !At(s, 2).remote && At(Apply(s, Add), 2).remote
  {
    var s0 := Init(true);
    RunStep(true, [], s0, Create(false));
    var s1 := Apply(s0, Create(false));
    RunStep(true, [] + [Create(false)], s1, Read(INTRUDER));
    run, s := [] + [Create(false)] + [Read(INTRUDER)], Apply(s1, Read(INTRUDER));
    hide Mine;
  }
}
