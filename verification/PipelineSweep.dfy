/** What the sweep with which Serve ends does for the streams before it, and which streams stay open
    after it. */
module PipelineSweep {
  import opened Options
  import opened StreamLife
  import opened Pipeline
  import opened PipelineLife
  import opened PipelineExpiry
  import D = PipelineDrain

  /** Whatever happens after the sweep, a stream that was added before it has its channel closed, or
      the thread that removed it can close it at once, or it is in line behind the streams that
      expired with it. */
  lemma AfterTheSweep(server: bool, pre: seq<Action>, more: seq<Action>, x: Id)
    requires Run(server, pre + [EndSweep] + more).Some? && FreshRun(server, pre + [EndSweep] + more)
    requires Run(server, pre).Some? && At(Run(server, pre).value, x).registered
    ensures var s := Run(server, pre + [EndSweep] + more).value;
            && !At(s, x).listed
            && (Closed(At(s, x)) || Releasable(s, x) || exists k, i :: InLine(s, k, i, x))
  {
    var swept := pre + [EndSweep];
    NothingReverts(server, swept, more, x);
    assert swept[..|swept| - 1] == pre;
    var r := Run(server, pre).value;
    assert Run(server, swept) == Some(Apply(r, EndSweep)) by { hide Apply, Enabled; }
    SweptIsUnlisted(r, x);
    hide Run, Apply, Enabled, Releasable, InLine;
    NoOrphanedReader(server, swept + more, x);
  }

  lemma SweptIsUnlisted(s: State, x: Id)
    requires Enabled(s, EndSweep)
    ensures At(Apply(s, EndSweep), x).registered == At(s, x).registered && !At(Apply(s, EndSweep), x).listed
  {}

  /** A step by which the application or the monitor gives up stream x. */
  predicate GivesUp(a: Action, x: Id) {
    a.Expire? || (a.Use? && a.id == x && a.use.ResetRemove?)
  }

  /** A stream that is open in the table when Serve is done. */
  ghost predicate Stranded(s: State, x: Id) {
    && s.reader.Done? && (forall w: Index :: s.lanes[w].worker.Exited?)
    && At(s, x).listed && !Closed(At(s, x)) && At(s, x).removing == 0 && !At(s, x).expiring
    && (x % 2 == s.next % 2 ==> x < s.next)
  }

  lemma StrandedStep(s: State, a: Action, x: Id)
    requires Stranded(s, x) && Enabled(s, a) && !GivesUp(a, x)
    ensures Stranded(Apply(s, a), x)
  {
    match a {
      case Use(y, u) =>
        if y == x {
          OnlyResetCloses(At(s, x), u);
          UseKeepsExpiring(At(s, x), u);
        }
      case _ =>
    }
    hide Used, Mine;
  }

  lemma OnlyResetCloses(st: Stream, u: Use)
    requires CanUse(st, u) && !Closed(st) && st.removing == 0 && !u.ResetRemove? && !u.ExpiryShut?
    ensures var r := Used(st, u); r.listed == st.listed && !Closed(r) && r.removing == 0
  {
    match u {
      case Open => case Answer => case ReadRest(_) => case ReadEof => case SetPriority(_) =>
      case CloseRemove => case WriteFin => case ResetRemove => case ResetShut => case ResetFinish =>
      case ExpiryShut(_) => case ExpiryFinish(_) => case ExpiryWritten(_) =>
    }
  }

  lemma {:induction false} StrandedStays(server: bool, run: seq<Action>, more: seq<Action>, x: Id)
    requires Run(server, run).Some? && Stranded(Run(server, run).value, x)
    requires Run(server, run + more).Some? && forall a | a in more :: !GivesUp(a, x)
    ensures Stranded(Run(server, run + more).value, x)
  {
    if more == [] {
      assert run + more == run;
    } else {
      var n := |more| - 1;
      assert (run + more)[..|run + more| - 1] == run + more[..n];
      assert (run + more)[|run + more| - 1] == more[n];
      hide Stranded, GivesUp, Apply, Enabled;
      StrandedStays(server, run, more[..n], x);
      StrandedStep(Run(server, run + more[..n]).value, more[n], x);
    }
  }

  /** CreateStream does not look whether Serve has ended: a stream created after that is in the
      table with its channel open, and stays so in every continuation in which neither the
      application resets it nor the monitor expires it. */
  lemma LateStreamStaysOpen(server: bool, run: seq<Action>, fin: bool, more: seq<Action>)
    requires Run(server, run).Some? && Run(server, run).value.reader.Done?
    requires Run(server, run + [Create(fin)] + more).Some?
    requires forall a | a in more :: !GivesUp(a, Run(server, run).value.next)
    ensures var x := Run(server, run).value.next;
            var s := Run(server, run + [Create(fin)] + more).value;
            s.reader.Done? && At(s, x).listed && !Closed(At(s, x))
  {
    var s := Run(server, run).value;
    var late := run + [Create(fin)];
    D.PhaseRun(server, run);
    RunPrefix(server, late, more);
    assert late[..|late| - 1] == run;
    assert Enabled(s, Create(fin)) && Run(server, late) == Some(Apply(s, Create(fin))) by { hide Apply, Enabled; }
    hide Run, GivesUp, D.Phases;
    LateIsStranded(s, fin);
    hide Stranded, Apply, Enabled;
    StrandedStays(server, late, more, s.next);
    StrandedMeans(Run(server, late + more).value, s.next);
  }

  lemma {:induction false} RunPrefix(server: bool, run: seq<Action>, more: seq<Action>)
    requires Run(server, run + more).Some?
    ensures Run(server, run).Some?
  {
    if more == [] {
      assert run + more == run;
    } else {
      var n := |more| - 1;
      assert (run + more)[..|run + more| - 1] == run + more[..n];
      hide Apply, Enabled;
      RunPrefix(server, run, more[..n]);
    }
  }

  lemma LateIsStranded(s: State, fin: bool)
    requires D.Phases(s) && s.reader.Done? && Enabled(s, Create(fin))
    ensures Stranded(Apply(s, Create(fin)), s.next)
  {
    forall w: Index ensures s.lanes[w].worker.Exited? { assert D.PhaseInv(s, w); }
    hide Mine;
  }

  lemma StrandedMeans(s: State, x: Id)
    requires Stranded(s, x)
    ensures s.reader.Done? && At(s, x).listed && !Closed(At(s, x))
  {}

  // -------------------------------------------------------------------------
  // A line behind a write that blocks

  /** Serve is done, and stream x waits in line k, open and not reset by the application. */
  ghost predicate Blocked(s: State, k: nat, i: nat, x: Id) {
    && s.reader.Done? && (forall w: Index :: s.lanes[w].worker.Exited?)
    && InLine(s, k, i, x) && !Closed(At(s, x)) && At(s, x).removing == 0
  }

  /** A step by the goroutine of line k, or by which the application resets stream x. */
  predicate Frees(a: Action, k: nat, x: Id) {
    OfLine(a, k) || a == Use(x, ResetRemove)
  }

  /** A stream waits in one line only. */
  lemma OneLine(s: State, k: nat, i: nat, x: Id, j: nat)
    requires LineInv(s, x) && InLine(s, k, i, x) && InLine(s, j, 0, x)
    ensures j == k
  {
    hide ToClose, Count, At;
    var es, none := s.expiries, Expiry([], ToShut);
    CountUpdate(es, k, none, x);
    InLineWaits(es[k], i, x);
    if j != k {
      CountUpdate(es[k := none], j, none, x);
      InLineWaits(es[j], 0, x);
    }
  }

  /** Only the goroutine of its line can close the stream for having expired. */
  lemma NoOtherLine(s: State, u: Use, k: nat, i: nat, x: Id)
    requires InLine(s, k, i, x) && LineInv(s, x) && Enabled(s, Use(x, u)) && !OfLine(Use(x, u), k)
    ensures !u.ExpiryShut?
  {
    if u.ExpiryShut? {
      TurnFits(s, x, u);
      hide Enabled, LineInv;
      OneLine(s, k, i, x, u.k);
      assert false;
    }
  }

  lemma BlockedUse(s: State, y: Id, u: Use, k: nat, i: nat, x: Id)
    requires Blocked(s, k, i, x) && LineInv(s, x) && Enabled(s, Use(y, u)) && !Frees(Use(y, u), k, x)
    ensures !Closed(At(Apply(s, Use(y, u)), x)) && At(Apply(s, Use(y, u)), x).removing == 0
  {
    AfterUse(s, y, u, x);
    if y == x {
      NoOtherLine(s, u, k, i, x);
      OnlyResetCloses(At(s, x), u);
    }
    hide Used, LineInv, InLine, OfLine, Apply, At, CanUse;
  }

  lemma AfterUse(s: State, y: Id, u: Use, x: Id)
    requires Enabled(s, Use(y, u))
    ensures At(Apply(s, Use(y, u)), x) == if x == y then Used(At(s, x), u) else At(s, x)
    ensures CanUse(At(s, y), u)
  {
    hide Used, CanUse, Served;
  }

  lemma BlockedStep(s: State, a: Action, k: nat, i: nat, x: Id)
    requires Blocked(s, k, i, x) && LineInv(s, x) && Enabled(s, a) && Fresh(s, a) && !Frees(a, k, x)
    ensures Blocked(Apply(s, a), k, i, x)
  {
    InLineIsStream(s, k, i, x);
    LineStands(s, a, k, i, x);
    if a.Use? { BlockedUse(s, a.id, a.use, k, i, x); }
    hide InLine, LineInv, Used, Mine, Overtakes;
  }

  /** While a write of its goroutine blocks, no step of anyone else, save a Reset by the
      application, closes a stream that waits in the line behind it, for as long as that lasts:
      Serve does not know these streams any more. */
  lemma {:induction false} BlockedLineStaysOpen(server: bool, run: seq<Action>, more: seq<Action>,
                                                k: nat, i: nat, x: Id)
    requires Run(server, run + more).Some? && FreshRun(server, run + more)
    requires Run(server, run).Some? && Run(server, run).value.reader.Done?
    requires var s := Run(server, run).value;
             InLine(s, k, i, x) && !Closed(At(s, x)) && At(s, x).removing == 0
    requires forall a | a in more :: !Frees(a, k, x)
    ensures var s := Run(server, run + more).value;
            InLine(s, k, i, x) && !Closed(At(s, x))
  {
    D.PhaseRun(server, run);
    DoneHasExited(Run(server, run).value);
    hide Run, FreshRun, Frees, InLine, Closed, D.Phases;
    BlockedRun(server, run, more, k, i, x);
  }

  lemma DoneHasExited(s: State)
    requires D.Phases(s) && s.reader.Done?
    ensures forall w: Index :: s.lanes[w].worker.Exited?
  {
    forall w: Index ensures s.lanes[w].worker.Exited? { assert D.PhaseInv(s, w); }
  }

  lemma {:induction false} BlockedRun(server: bool, run: seq<Action>, more: seq<Action>, k: nat, i: nat, x: Id)
    requires Run(server, run + more).Some? && FreshRun(server, run + more)
    requires Run(server, run).Some? && Blocked(Run(server, run).value, k, i, x)
    requires forall a | a in more :: !Frees(a, k, x)
    ensures Blocked(Run(server, run + more).value, k, i, x)
  {
    hide *;
    if more == [] {
      assert run + more == run;
    } else {
      var n := |more| - 1;
      var before := run + more[..n];
      assert (run + more)[..|run + more| - 1] == before && (run + more)[|run + more| - 1] == more[n];
      LastStep(server, run + more);
      BlockedRun(server, run, more[..n], k, i, x);
      LineRun(server, before, x);
      BlockedStep(Run(server, before).value, more[n], k, i, x);
    }
  }

  // -------------------------------------------------------------------------
  // Runs to the end of Serve

  ghost predicate Leads(run: seq<Action>, s: State) {
    Run(false, run) == Some(s) && FreshRun(false, run)
  }

  lemma RunStep(run: seq<Action>, s: State, a: Action)
    requires Leads(run, s) && Enabled(s, a) && Fresh(s, a)
    ensures Leads(run + [a], Apply(s, a))
  {
    hide Enabled, Apply, Fresh;
    assert (run + [a])[..|run|] == run;
  }

  ghost predicate SameStreamsAs(s0: State, s: State) {
    s.streams == s0.streams && s.expiries == s0.expiries && s.next == s0.next
  }

  /** Serve has stopped, nothing was read; lanes below drained and exited are so, the others as at
      the start. */
  ghost predicate Ending(s0: State, s: State, drained: nat, exited: nat) {
    && s.reader == Waiting(false) && s.closed && SameStreamsAs(s0, s)
    && forall w: Index :: s.lanes[w] == Lane([], w < drained, if w < exited then Exited else Idle, [])
  }

  /** Serve is reading, and has read nothing yet. */
  ghost predicate Starting(run: seq<Action>, s: State) {
    Leads(run, s) && s.reader == Reading && forall w: Index :: s.lanes[w] == FRESH
  }

  lemma {:induction false} ReachDrained(run0: seq<Action>, s0: State, n: nat) returns (run: seq<Action>, s: State)
    requires Starting(run0, s0) && n <= FRAME_WORKERS
    ensures Leads(run, s) && Ending(s0, s, n, 0)
  {
    hide Leads;
    if n == 0 {
      RunStep(run0, s0, Stop);
      RunStep(run0 + [Stop], Apply(s0, Stop), CloseChan);
      run, s := run0 + [Stop] + [CloseChan], Apply(Apply(s0, Stop), CloseChan);
    } else {
      run, s := ReachDrained(run0, s0, n - 1);
      RunStep(run, s, Drain(n - 1));
      run, s := run + [Drain(n - 1)], Apply(s, Drain(n - 1));
    }
  }

  lemma {:induction false} ReachExited(run0: seq<Action>, s0: State, n: nat) returns (run: seq<Action>, s: State)
    requires Starting(run0, s0) && n <= FRAME_WORKERS
    ensures Leads(run, s) && Ending(s0, s, FRAME_WORKERS, n)
  {
    hide Leads;
    if n == 0 {
      run, s := ReachDrained(run0, s0, FRAME_WORKERS);
    } else {
      run, s := ReachExited(run0, s0, n - 1);
      RunStep(run, s, Exit(n - 1));
      run, s := run + [Exit(n - 1)], Apply(s, Exit(n - 1));
    }
  }

  /** Serve comes to its end with an empty table. */
  lemma ReachDone(run0: seq<Action>, s0: State) returns (run: seq<Action>, s: State)
    requires Starting(run0, s0) && Listed(s0) == {}
    ensures Leads(run, s) && s.reader.Done? && s.next == s0.next && s.expiries == s0.expiries
    ensures forall x :: At(s, x) == At(s0, x).(listed := false)
  {
    hide Leads;
    run, s := ReachExited(run0, s0, FRAME_WORKERS);
    RunStep(run, s, AllExited);
    run, s := run + [AllExited], Apply(s, AllExited);
    RunStep(run, s, BeginSweep);
    run, s := run + [BeginSweep], Apply(s, BeginSweep);
    assert Listed(s) == Listed(s0);
    RunStep(run, s, EndSweep);
    run, s := run + [EndSweep], Apply(s, EndSweep);
  }

  /** Serve ends, and a stream is created then: it is open in the table, where it stays by
      LateStreamStaysOpen. */
  lemma LateStreamIsOpen() returns (run: seq<Action>, s: State)
    ensures Leads(run, s) && s.reader.Done? && At(s, 1).listed && !Closed(At(s, 1))
  {
    var s0 := Init(false);
    assert Leads([], s0);
    hide Leads;
    run, s := ReachDone([], s0);
    RunStep(run, s, Create(false));
    run, s := run + [Create(false)], Apply(s, Create(false));
  }

  /** Two streams expire, the write of the RST_STREAM for the first one blocks, and Serve ends: the
      second one is open, and stays so by BlockedLineStaysOpen. */
  lemma BlockedLineIsOpen() returns (run: seq<Action>, s: State)
    ensures Leads(run, s) && s.reader.Done?
    ensures InLine(s, 0, 1, 3) && s.expiries[0].stage.ToWrite?
    ensures At(s, 3).registered && !At(s, 3).listed && !Closed(At(s, 3)) && At(s, 3).removing == 0
  {
    var run0, s0 := ReachBlocked();
    hide Leads;
    run, s := ReachDone(run0, s0);
    assert At(s, 3) == At(s0, 3).(listed := false);
  }

  lemma ReachBlocked() returns (run: seq<Action>, s: State)
    ensures Starting(run, s) && Listed(s) == {} && s.expiries == [Expiry([1, 3], ToWrite)]
    ensures At(s, 3).registered && !Closed(At(s, 3)) && At(s, 3).removing == 0
  {
    run, s := ReachExpired();
    hide Leads;
    RunStep(run, s, Use(1, ExpiryShut(0)));
    run, s := run + [Use(1, ExpiryShut(0))], Apply(s, Use(1, ExpiryShut(0)));
    RunStep(run, s, Use(1, ExpiryFinish(0)));
    run, s := run + [Use(1, ExpiryFinish(0))], Apply(s, Use(1, ExpiryFinish(0)));
  }

  lemma ReachExpired() returns (run: seq<Action>, s: State)
    ensures Starting(run, s) && s.expiries == [Expiry([1, 3], ToShut)]
    ensures s.streams == map[1 := Expired(Created(false, true)), 3 := Expired(Created(false, true))]
  {
    run, s := ReachCreated();
    hide Leads, Expired, Created;
    ListedCreated(s);
    assert multiset([1, 3]) == multiset({1, 3});
    RunStep(run, s, Expire([1, 3]));
    run, s := run + [Expire([1, 3])], Apply(s, Expire([1, 3]));
  }

  lemma ListedCreated(s: State)
    requires s.streams == map[1 := Created(false, true), 3 := Created(false, true)]
    ensures Listed(s) == {1, 3}
  {}

  lemma ReachCreated() returns (run: seq<Action>, s: State)
    ensures Starting(run, s) && s.expiries == []
    ensures s.streams == map[1 := Created(false, true), 3 := Created(false, true)]
  {
    s := Init(false);
    run := [];
    assert Leads(run, s);
    hide Leads;
    RunStep(run, s, Create(false));
    run, s := run + [Create(false)], Apply(s, Create(false));
    RunStep(run, s, Create(false));
    run, s := run + [Create(false)], Apply(s, Create(false));
  }
}
