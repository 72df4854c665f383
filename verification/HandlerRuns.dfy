/** The methods of module Handlers are runs of module Pipeline: a handler that no other thread
    interrupts takes the stream where its method says it does. */
module HandlerRuns {
  import opened Options
  import opened StreamLife
  import opened Pipeline
  import H = Handlers

  /** The handler never blocks, given what happens at its channel operation. */
  predicate CanPlay(f: Frame, stage: Stage, st: Stream, take: Move)
    decreases H.Rank(stage)
  {
    var m := H.MoveAt(stage, take);
    var next := NextStage(f, stage, st, m);
    CanAdvance(f, stage, st, m) && (next.Some? ==> CanPlay(f, next.value, Handled(f, stage, st, m), take))
  }

  /** Nothing but lane w and stream x has changed. */
  ghost predicate OnlyThese(s: State, s1: State, w: Index, x: Id) {
    && s1.reader == s.reader && s1.read == s.read && s1.closed == s.closed
    && s1.expiries == s.expiries && s1.overtaken == s.overtaken
    && (forall v: Index | v != w :: s1.lanes[v] == s.lanes[v])
    && s1.lanes[w].queue == s.lanes[w].queue
    && (forall y: Id | y != x :: At(s1, y) == At(s, y))
  }

  /** The steps lead from s to s1. */
  predicate Lead(s: State, steps: seq<Action>, s1: State)
    decreases |steps|
  {
    if steps == [] then s1 == s
    else Enabled(s, steps[0]) && Lead(Apply(s, steps[0]), steps[1..], s1)
  }

  lemma {:induction false} LeadIsRun(server: bool, run: seq<Action>, steps: seq<Action>, s1: State)
    requires Run(server, run).Some? && Lead(Run(server, run).value, steps, s1)
    ensures Run(server, run + steps) == Some(s1)
    decreases |steps|
  {
    if steps == [] {
      assert run + steps == run;
    } else {
      var run1 := run + [steps[0]];
      assert run1[..|run1| - 1] == run;
      assert run + steps == run1 + steps[1..];
      assert Run(server, run1) == Some(Apply(Run(server, run).value, steps[0])) by { hide Enabled, Apply; }
      hide Enabled, Apply, Run;
      LeadIsRun(server, run1, steps[1..], s1);
    }
  }

  /** Before and after the rest of a handler. */
  ghost predicate Plays(s: State, s1: State, w: Index, f: Frame, stage: Stage, take: Move) {
    && f.OnStream?
    && At(s1, f.id) == H.Play(f, stage, At(s, f.id), take)
    && s1.lanes[w].worker.Idle? && s1.lanes[w].handled == s.lanes[w].handled + [f]
    && OnlyThese(s, s1, w, f.id)
  }

  lemma {:induction false} HandlerLeads(s: State, w: Index, f: Frame, stage: Stage, take: Move)
    returns (steps: seq<Action>, s1: State)
    requires s.lanes[w].worker == Busy(f, stage) && f.OnStream?
    requires CanPlay(f, stage, At(s, f.id), take)
    ensures Lead(s, steps, s1) && Plays(s, s1, w, f, stage, take)
    decreases H.Rank(stage)
  {
    hide Enabled, Apply, Handled, NextStage, CanAdvance, H.MoveAt, H.Play, CanPlay, At, H.Rank;
    var a := Advance(w, H.MoveAt(stage, take));
    var st, m := At(s, f.id), H.MoveAt(stage, take);
    var next := NextStage(f, stage, st, m);
    PlayOnce(f, stage, st, take);
    OneStep(s, w, take);
    RankFalls(f, stage, st, m);
    var s2 := Apply(s, a);
    if next.None? {
      steps, s1 := [a], s2;
      assert Lead(s2, [], s2) && [a][1..] == [];
    } else {
      var more;
      more, s1 := HandlerLeads(s2, w, f, next.value, take);
      steps := [a] + more;
      assert steps[1..] == more;
    }
  }

  lemma PlayOnce(f: Frame, stage: Stage, st: Stream, take: Move)
    requires CanPlay(f, stage, st, take)
    ensures var m := H.MoveAt(stage, take);
            var next := NextStage(f, stage, st, m);
            && CanAdvance(f, stage, st, m)
            && (next.Some? ==> CanPlay(f, next.value, Handled(f, stage, st, m), take))
            && H.Play(f, stage, st, take) ==
                 if next.None? then Handled(f, stage, st, m) else H.Play(f, next.value, Handled(f, stage, st, m), take)
  {
    hide CanAdvance, NextStage, Handled, H.MoveAt;
  }

  /** A handler that no other thread interrupts returns, and leaves its stream as Play says, its
      lane idle, and the rest of the connection as it was. */
  lemma HandlerIsARun(server: bool, run: seq<Action>, w: Index, take: Move) returns (more: seq<Action>)
    requires Run(server, run).Some? && Run(server, run).value.lanes[w].worker.Busy?
    requires var s := Run(server, run).value;
             var worker := s.lanes[w].worker;
             worker.frame.OnStream? && CanPlay(worker.frame, worker.stage, At(s, worker.frame.id), take)
    ensures Run(server, run + more).Some?
    ensures var s := Run(server, run).value;
            var worker := s.lanes[w].worker;
            Plays(s, Run(server, run + more).value, w, worker.frame, worker.stage, take)
  {
    hide *;
    var s := Run(server, run).value;
    var s1;
    more, s1 := HandlerLeads(s, w, s.lanes[w].worker.frame, s.lanes[w].worker.stage, take);
    LeadIsRun(server, run, more, s1);
  }

  lemma RankFalls(f: Frame, stage: Stage, st: Stream, m: Move)
    ensures var next := NextStage(f, stage, st, m);
            next.Some? ==> H.Rank(next.value) < H.Rank(stage)
  {}

  lemma OneStep(s: State, w: Index, take: Move)
    requires s.lanes[w].worker.Busy? && s.lanes[w].worker.frame.OnStream?
    requires var worker := s.lanes[w].worker;
             CanAdvance(worker.frame, worker.stage, At(s, worker.frame.id), H.MoveAt(worker.stage, take))
    ensures var Busy(f, stage) := s.lanes[w].worker;
            var m := H.MoveAt(stage, take);
            && Enabled(s, Advance(w, m))
            && var s1 := Apply(s, Advance(w, m));
               && At(s1, f.id) == Handled(f, stage, At(s, f.id), m)
               && s1.lanes[w] == Advanced(s.lanes[w], f, NextStage(f, stage, At(s, f.id), m))
               && OnlyThese(s, s1, w, f.id)
  {
    hide CanAdvance, NextStage, Handled, H.MoveAt;
  }

  /** What the methods of module Handlers demand of their callers is what it takes not to block. */
  lemma MethodsCanPlay(f: Frame, st: Stream, take: Move)
    requires f.OnStream?
    requires f.content.Rst? ==> take == TakeError
    requires f.content.Headers? || Payload(f) != [] ==> CanAdvance(f, Offer, st, take)
    ensures CanPlay(f, Lookup, st, take)
  {
    var st1 := Handled(f, Lookup, st, Go);
    if f.content.Rst? {
      ResetCanPlay(f, st1);
    } else {
      CheckedCanPlay(f, st1, take);
    }
  }

  lemma ResetCanPlay(f: Frame, st: Stream)
    requires f.OnStream? && f.content.Rst?
    ensures CanPlay(f, Remove, st, TakeError)
  {
    hide Handled;
    RejectionCanPlay(f, Handled(f, Shutting, Handled(f, Remove, st, Go), Go));
  }

  lemma RejectionCanPlay(f: Frame, st: Stream)
    requires f.OnStream? && f.content.Rst?
    ensures CanPlay(f, Check, st, TakeError)
  {
    hide Handled;
    var st1 := Handled(f, Check, st, Go);
    SentCanPlay(f, Handled(f, Mark, st1, Go));
    assert CanPlay(f, MarkFinished, st1, TakeError);
  }

  lemma SentCanPlay(f: Frame, st: Stream)
    requires f.OnStream? && f.content.Rst?
    ensures CanPlay(f, SendErr, st, TakeError)
  {
    hide Handled;
    var st1 := Handled(f, CloseStart, Handled(f, SendErr, st, TakeError), Go);
    assert CanPlay(f, MarkFinished, st1, TakeError);
  }

  lemma CheckedCanPlay(f: Frame, st: Stream, take: Move)
    requires f.OnStream? && !f.content.Rst?
    requires f.content.Headers? || Payload(f) != [] ==> CanAdvance(f, Offer, st, take)
    ensures f.content.Syn? || CanPlay(f, Check, st, take)
  {
    hide Handled;
    var st1 := Handled(f, Check, st, Go);
    HandledIsLater(f, Check, st, Go);
    HandledKeeps(f, Check, st, Go);
    EndCanPlay(f, st1, take);
    EndCanPlay(f, Handled(f, Offer, st1, take), take);
    EndCanPlay(f, Handled(f, Mark, st1, Go), take);
    assert CanAdvance(f, Offer, st, take) ==> CanAdvance(f, Offer, st1, take);
  }

  lemma EndCanPlay(f: Frame, st: Stream, take: Move)
    requires f.OnStream? && !f.content.Rst?
    ensures CanPlay(f, FinishShut, st, take) && CanPlay(f, CloseStart, st, take)
  {
    hide Handled;
  }
}
