/** What becomes of the streams that the idle monitor takes from the table: one goroutine for each
    expiry resets them one after another, and writes an RST_STREAM before it goes on to the next. */
module PipelineExpiry {
  import opened Options
  import opened StreamLife
  import opened Pipeline
  import opened PipelineLife

  // -------------------------------------------------------------------------
  // The streams that are still to be closed

  /** The streams that the goroutine is still to close. */
  function ToClose(e: Expiry): multiset<Id> {
    multiset(if e.stage.ToShut? || e.queue == [] then e.queue else e.queue[1..])
  }

  /** How many goroutines are still to close stream x. */
  function Count(es: seq<Expiry>, x: Id): nat {
    if es == [] then 0 else Count(es[..|es| - 1], x) + ToClose(es[|es| - 1])[x]
  }

  lemma CountMore(es: seq<Expiry>, e: Expiry, x: Id)
    ensures Count(es + [e], x) == Count(es, x) + ToClose(e)[x]
  {
    assert (es + [e])[..|es|] == es;
  }

  lemma {:induction false} CountUpdate(es: seq<Expiry>, k: nat, e: Expiry, x: Id)
    requires k < |es|
    ensures Count(es[k := e], x) + ToClose(es[k])[x] == Count(es, x) + ToClose(e)[x]
  {
    var n := |es| - 1;
    hide ToClose;
    if k < n {
      CountUpdate(es[..n], k, e, x);
      assert es[k := e][..n] == es[..n][k := e];
    } else {
      assert es[k := e][..n] == es[..n];
    }
  }

  /** Each stream that has yet to be closed is in exactly one line, once; and what is in a line is
      a stream. */
  ghost predicate LineInv(s: State, x: Id) {
    && Count(s.expiries, x) == (if At(s, x).expiring then 1 else 0)
    && forall e | e in s.expiries && x in e.queue :: At(s, x).registered
  }

  // -------------------------------------------------------------------------
  // The steps

  lemma ServedWaits(e: Expiry, u: Use, st: Stream, x: Id)
    requires e.queue != [] && OfExpiry(u) && (u.ExpiryShut? <==> e.stage.ToShut?)
    ensures ToClose(e)[x] == ToClose(Served(e, u, st))[x] + (if u.ExpiryShut? && x == e.queue[0] then 1 else 0)
    ensures x in Served(e, u, st).queue ==> x in e.queue
  {
    assert e.queue == [e.queue[0]] + e.queue[1..];
  }

  lemma UseKeepsExpiring(st: Stream, u: Use)
    ensures Used(st, u).registered == st.registered
    ensures Used(st, u).expiring == (st.expiring && !u.ExpiryShut?)
  {
    match u {
      case Open => case Answer => case ReadRest(_) => case ReadEof => case SetPriority(_) =>
      case CloseRemove => case WriteFin => case ResetRemove => case ResetShut => case ResetFinish =>
      case ExpiryShut(_) => case ExpiryFinish(_) => case ExpiryWritten(_) =>
    }
  }

  /** What a use leaves of stream x, and of the lines. */
  lemma UsedLines(s: State, y: Id, u: Use, x: Id)
    requires Enabled(s, Use(y, u))
    ensures var s1 := Apply(s, Use(y, u));
            && (At(s, x).registered ==> At(s1, x).registered)
            && At(s1, x).expiring == (At(s, x).expiring && !(u.ExpiryShut? && y == x))
            && s1.expiries ==
                 if OfExpiry(u) then s.expiries[u.k := Served(s.expiries[u.k], u, At(s, y))] else s.expiries
  {
    UseKeepsExpiring(At(s, y), u);
    hide Used, CanUse, Served;
  }

  lemma LineUse(s: State, y: Id, u: Use, x: Id)
    requires LineInv(s, x) && Enabled(s, Use(y, u))
    ensures LineInv(Apply(s, Use(y, u)), x)
  {
    UsedLines(s, y, u, x);
    if OfExpiry(u) {
      TurnFits(s, y, u);
      hide Enabled, Apply, ToClose, Served, Count, At, OfExpiry;
      ServedWaits(s.expiries[u.k], u, At(s, y), x);
      CountUpdate(s.expiries, u.k, Served(s.expiries[u.k], u, At(s, y)), x);
      assert s.expiries[u.k] in s.expiries;
    } else {
      hide Enabled, Apply, At, Count;
    }
  }

  lemma TurnFits(s: State, y: Id, u: Use)
    requires Enabled(s, Use(y, u)) && OfExpiry(u)
    ensures u.k < |s.expiries| && s.expiries[u.k].queue != [] && s.expiries[u.k].queue[0] == y
    ensures u.ExpiryShut? <==> s.expiries[u.k].stage.ToShut?
    ensures u.ExpiryShut? ==> At(s, y).expiring
  {
    hide At;
  }

  lemma LineAdvance(s: State, w: Index, m: Move, x: Id)
    requires LineInv(s, x) && Enabled(s, Advance(w, m))
    ensures LineInv(Apply(s, Advance(w, m)), x)
  {
    AdvancedLines(s, w, m, x);
    hide Enabled, Apply, Count, At;
  }

  lemma AdvancedLines(s: State, w: Index, m: Move, x: Id)
    requires Enabled(s, Advance(w, m))
    ensures var s1 := Apply(s, Advance(w, m));
            && At(s1, x).registered == At(s, x).registered && At(s1, x).expiring == At(s, x).expiring
            && s1.expiries == s.expiries
  {
    var Busy(f, stage) := s.lanes[w].worker;
    HandledKeeps(f, stage, At(s, x), m);
    hide Handled, CanAdvance, NextStage, LaneOf;
  }

  lemma LineExpire(s: State, order: seq<Id>, x: Id)
    requires LineInv(s, x) && FieldInv(At(s, x)) && (At(s, x).expiring ==> !At(s, x).listed)
    requires Enabled(s, Expire(order))
    ensures LineInv(Apply(s, Expire(order)), x)
  {
    assert At(s, x).listed ==> At(s, x).registered;
    hide Enabled, Apply, Count, At, ToClose, Listed, FieldInv;
    var e := Expiry(order, ToShut);
    ExpiredLines(s, order, x);
    CountMore(s.expiries, e, x);
    ListedOnce(s, order, x);
    forall e1 | e1 in s.expiries + [e] && x in e1.queue ensures At(s, x).registered {
      if e1 in s.expiries {} else { assert e1 == e; }
    }
  }

  lemma ListedOnce(s: State, order: seq<Id>, x: Id)
    requires multiset(order) == multiset(Listed(s))
    ensures ToClose(Expiry(order, ToShut))[x] == if At(s, x).listed then 1 else 0
    ensures x in order ==> At(s, x).listed
  {
    assert x in order <==> x in multiset(order);
  }

  lemma ExpiredLines(s: State, order: seq<Id>, x: Id)
    requires Enabled(s, Expire(order))
    ensures multiset(order) == multiset(Listed(s))
    ensures var s1 := Apply(s, Expire(order));
            && At(s1, x).registered == At(s, x).registered
            && At(s1, x).expiring == (At(s, x).expiring || At(s, x).listed)
            && s1.expiries == s.expiries + [Expiry(order, ToShut)]
  {
    hide Listed;
  }

  lemma LineBirth(s: State, a: Action, x: Id)
    requires LineInv(s, x) && FieldInv(At(s, x)) && Enabled(s, a) && Fresh(s, a) && (a.Add? || a.Create?)
    ensures LineInv(Apply(s, a), x)
  {
    hide Count, Mine;
  }

  lemma LineTable(s: State, a: Action, x: Id)
    requires LineInv(s, x) && Enabled(s, a) && (a.SweepOne? || a.EndSweep?)
    ensures LineInv(Apply(s, a), x)
  {
    hide Count;
  }

  lemma LineRest(s: State, a: Action, x: Id)
    requires LineInv(s, x) && Enabled(s, a) && (Quiet(a) || a.Read?)
    ensures LineInv(Apply(s, a), x)
  {
    SameStreams(s, a, x);
    hide Count, At, Mine, Arrives, Classify, Received, Turned, Overtakes;
  }

  lemma LineStep(s: State, a: Action, x: Id)
    requires LineInv(s, x) && LivesInv(s, x) && Enabled(s, a) && Fresh(s, a)
    ensures LineInv(Apply(s, a), x)
  {
    assert FieldInv(At(s, x)) && (At(s, x).expiring ==> !At(s, x).listed) by {
      hide FieldInv, ChannelInv, TaskInv, LanePlaced, LineInv;
    }
    hide LineInv, LivesInv, FieldInv, Enabled, Apply, Fresh;
    match a {
      case Use(y, u) => LineUse(s, y, u, x);
      case Advance(w, m) => LineAdvance(s, w, m, x);
      case Add => LineBirth(s, a, x);
      case Create(_) => LineBirth(s, a, x);
      case SweepOne(_) => LineTable(s, a, x);
      case EndSweep => LineTable(s, a, x);
      case Expire(order) => LineExpire(s, order, x);
      case _ => LineRest(s, a, x);
    }
  }

  lemma {:induction false} LineRun(server: bool, run: seq<Action>, x: Id)
    requires Run(server, run).Some? && FreshRun(server, run)
    ensures LineInv(Run(server, run).value, x)
  {
    if run != [] {
      LineRun(server, run[..|run| - 1], x);
      LivesRun(server, run[..|run| - 1], x);
      hide LineInv, LivesInv, Enabled, Apply, Fresh;
      LineStep(Run(server, run[..|run| - 1]).value, run[|run| - 1], x);
    }
  }

  // -------------------------------------------------------------------------
  // No orphaned reader

  /** Stream x is number i in the line of expiry k, and is still to be closed there. */
  predicate InLine(s: State, k: nat, i: nat, x: Id) {
    && k < |s.expiries| && i < |s.expiries[k].queue| && s.expiries[k].queue[i] == x
    && (i == 0 ==> s.expiries[k].stage.ToShut?)
  }

  lemma {:induction false} WaitsInLine(es: seq<Expiry>, x: Id) returns (k: nat, i: nat)
    requires Count(es, x) > 0
    ensures k < |es| && i < |es[k].queue| && es[k].queue[i] == x && (i == 0 ==> es[k].stage.ToShut?)
  {
    var n := |es| - 1;
    if ToClose(es[n])[x] > 0 {
      k := n;
      i := WaitsAt(es[n], x);
    } else {
      hide ToClose;
      k, i := WaitsInLine(es[..n], x);
    }
  }

  lemma WaitsAt(e: Expiry, x: Id) returns (i: nat)
    requires ToClose(e)[x] > 0
    ensures i < |e.queue| && e.queue[i] == x && (i == 0 ==> e.stage.ToShut?)
  {
    if e.stage.ToShut? {
      assert x in e.queue;
      i :| 0 <= i < |e.queue| && e.queue[i] == x;
    } else {
      assert x in e.queue[1..];
      var j :| 0 <= j < |e.queue[1..]| && e.queue[1..][j] == x;
      i := j + 1;
    }
  }

  /** The step with which a thread of the application or a handler that took stream x from the
      table closes its channel. */
  function Release(s: State, x: Id): Action {
    if At(s, x).removing > 0 then Use(x, ResetShut) else Advance(LaneOf(x), Go)
  }

  ghost predicate Releasable(s: State, x: Id) {
    Enabled(s, Release(s, x)) && Closed(At(Apply(s, Release(s, x)), x))
  }

  /** No reader is orphaned: in every run, a stream that was added is in the table, or its
      closeChan is closed, or the thread that removed it can close it at once, or it is in line
      behind the streams that expired with it. */
  lemma NoOrphanedReader(server: bool, run: seq<Action>, x: Id)
    requires Run(server, run).Some? && FreshRun(server, run) && At(Run(server, run).value, x).registered
    ensures var s := Run(server, run).value;
            At(s, x).listed || Closed(At(s, x)) || Releasable(s, x) || exists k, i :: InLine(s, k, i, x)
  {
    LivesRun(server, run, x);
    LineRun(server, run, x);
    var s := Run(server, run).value;
    hide *;
    if !At(s, x).listed && !Closed(At(s, x)) { OwedClose(s, x); }
  }

  lemma OwedClose(s: State, x: Id)
    requires LivesInv(s, x) && LineInv(s, x) && At(s, x).registered && !At(s, x).listed && !Closed(At(s, x))
    ensures Releasable(s, x) || exists k, i :: InLine(s, k, i, x)
  {
    assert LifeInv(TaskOf(s, x), At(s, x)) by { hide LifeInv, LanePlaced, LineInv; }
    if At(s, x).removing > 0 {
      ResetCanClose(s, x);
    } else if At(s, x).expiring {
      hide Apply, Enabled, LifeInv, LivesInv, Count;
      var k, i := WaitsInLine(s.expiries, x);
      assert InLine(s, k, i, x);
    } else {
      HandlerCanClose(s, x);
    }
    hide *;
  }

  lemma ResetCanClose(s: State, x: Id)
    requires At(s, x).registered && At(s, x).removing > 0
    ensures Releasable(s, x)
  {
    hide LaneOf;
  }

  lemma HandlerCanClose(s: State, x: Id)
    requires TaskOf(s, x).On? && TaskOf(s, x).stage.Shutting? && At(s, x).removing == 0
    ensures Releasable(s, x)
  {
    hide LaneOf, NextStage;
  }

  // -------------------------------------------------------------------------
  // The line moves

  /** The action is the next statement of the goroutine of expiry k. */
  predicate OfLine(a: Action, k: nat) {
    a.Use? && OfExpiry(a.use) && a.use.k == k
  }

  /** That statement. The goroutine that is at ToWrite is in WriteFrame, which may block. */
  function NextOf(s: State, k: nat): Action
    requires k < |s.expiries| && s.expiries[k].queue != []
  {
    var e := s.expiries[k];
    Use(e.queue[0], match e.stage
                    case ToShut => ExpiryShut(k)
                    case ToFinish => ExpiryFinish(k)
                    case ToWrite => ExpiryWritten(k))
  }

  /** The most steps of its goroutine until number i of the line is closed. */
  function StepsAhead(e: Expiry, i: nat): int {
    3 * i + match e.stage case ToShut => 1 case ToFinish => 0 case ToWrite => -1
  }

  lemma InLineIsStream(s: State, k: nat, i: nat, x: Id)
    requires InLine(s, k, i, x) && LineInv(s, x)
    ensures At(s, x).registered && At(s, x).expiring
  {
    hide At, Count, ToClose;
    CountUpdate(s.expiries, k, Expiry([], ToShut), x);
    assert s.expiries[k] in s.expiries && x in s.expiries[k].queue;
    InLineWaits(s.expiries[k], i, x);
  }

  lemma InLineWaits(e: Expiry, i: nat, x: Id)
    requires i < |e.queue| && e.queue[i] == x && (i == 0 ==> e.stage.ToShut?)
    ensures ToClose(e)[x] > 0
    ensures ToClose(Expiry([], ToShut)) == multiset{}
  {
    if e.stage.ToShut? { assert e.queue[i] in e.queue; } else { assert e.queue[1..][i - 1] == x; }
  }

  lemma NextIsEnabled(s: State, k: nat)
    requires k < |s.expiries| && s.expiries[k].queue != []
    requires LineInv(s, s.expiries[k].queue[0])
    ensures Enabled(s, NextOf(s, k)) && OfLine(NextOf(s, k), k)
  {
    hide At, Count;
    var e := s.expiries[k];
    assert e in s.expiries && e.queue[0] in e.queue;
    if e.stage.ToShut? { InLineIsStream(s, k, 0, e.queue[0]); }
  }

  /** Where number i of line k is after a step of its goroutine. */
  function Onward(s: State, k: nat, i: nat): nat
    requires k < |s.expiries| && s.expiries[k].queue != []
  {
    var e := s.expiries[k];
    if i > 0 && (e.stage.ToWrite? || (e.stage.ToFinish? && At(s, e.queue[0]).finished)) then i - 1 else i
  }

  lemma LineGoesOn(s: State, k: nat, i: nat, x: Id)
    requires InLine(s, k, i, x) && Enabled(s, NextOf(s, k))
    ensures var s1 := Apply(s, NextOf(s, k));
            if i == 0 && s.expiries[k].stage.ToShut? then Closed(At(s1, x))
            else
              && InLine(s1, k, Onward(s, k, i), x)
              && StepsAhead(s1.expiries[k], Onward(s, k, i)) < StepsAhead(s.expiries[k], i)
  {}

  /** A step of anyone else leaves the line as it is. */
  lemma LineStands(s: State, a: Action, k: nat, i: nat, x: Id)
    requires InLine(s, k, i, x) && Enabled(s, a) && !OfLine(a, k)
    ensures InLine(Apply(s, a), k, i, x) && Apply(s, a).expiries[k] == s.expiries[k]
  {
    hide Mine, At, Used, Handled, NextStage, CanUse, CanAdvance, Expired, Shut, Accepted, Created, Listed, Overtakes;
  }

  /** The goroutine of a line has one next step. */
  lemma OnlyNext(s: State, a: Action, k: nat)
    requires Enabled(s, a) && OfLine(a, k)
    ensures k < |s.expiries| && s.expiries[k].queue != [] && a == NextOf(s, k)
  {
    hide CanUse, At;
  }

  /** In every run: the goroutine of the line in which a stream waits is never stuck but in a
      write, each of its steps brings the stream nearer to its close, and the steps of others
      change nothing about that. */
  lemma LineMoves(server: bool, run: seq<Action>, k: nat, i: nat, x: Id, a: Action)
    requires Run(server, run).Some? && FreshRun(server, run) && InLine(Run(server, run).value, k, i, x)
    ensures Enabled(Run(server, run).value, NextOf(Run(server, run).value, k))
    ensures var s := Run(server, run).value;
            Enabled(s, a) ==>
              var s1 := Apply(s, a);
              if !OfLine(a, k) then InLine(s1, k, i, x) && s1.expiries[k] == s.expiries[k]
              else
                || Closed(At(s1, x))
                || exists i1 :: InLine(s1, k, i1, x)
                                && StepsAhead(s1.expiries[k], i1) < StepsAhead(s.expiries[k], i)
  {
    var s := Run(server, run).value;
    LineRun(server, run, s.expiries[k].queue[0]);
    hide Run, Enabled, Apply, LineInv, FreshRun;
    NextIsEnabled(s, k);
    if Enabled(s, a) {
      if OfLine(a, k) {
        OnlyNext(s, a, k);
        LineGoesOn(s, k, i, x);
      } else {
        LineStands(s, a, k, i, x);
      }
    }
  }

  function StepsOf(more: seq<Action>, k: nat): nat {
    if more == [] then 0
    else StepsOf(more[..|more| - 1], k) + (if OfLine(more[|more| - 1], k) then 1 else 0)
  }

  /** How near stream x has come to its close. */
  ghost predicate Nearer(s: State, k: nat, x: Id, left: int) {
    Closed(At(s, x)) || exists i :: InLine(s, k, i, x) && StepsAhead(s.expiries[k], i) <= left
  }

  lemma NearerStep(server: bool, run: seq<Action>, k: nat, x: Id, left: int, a: Action)
    requires Run(server, run).Some? && FreshRun(server, run) && Nearer(Run(server, run).value, k, x, left)
    requires At(Run(server, run).value, x).registered
    requires Enabled(Run(server, run).value, a) && Fresh(Run(server, run).value, a)
    ensures Nearer(Apply(Run(server, run).value, a), k, x, left - (if OfLine(a, k) then 1 else 0))
  {
    var s := Run(server, run).value;
    if Closed(At(s, x)) {
      LaterStep(s, a, x);
      hide Run, Enabled, Apply, Fresh, FreshRun;
    } else {
      var i :| InLine(s, k, i, x) && StepsAhead(s.expiries[k], i) <= left;
      hide Run, Enabled, Apply, Fresh, FreshRun, InLine;
      LineMoves(server, run, k, i, x, a);
    }
  }

  lemma {:induction false} NearerRun(server: bool, run: seq<Action>, more: seq<Action>, k: nat, x: Id, left: int)
    requires Run(server, run + more).Some? && FreshRun(server, run + more)
    requires Run(server, run).Some? && At(Run(server, run).value, x).registered
    requires Nearer(Run(server, run).value, k, x, left)
    ensures Nearer(Run(server, run + more).value, k, x, left - StepsOf(more, k))
  {
    hide *;
    if more == [] {
      NoSteps(k);
      assert run + more == run;
    } else {
      var n := |more| - 1;
      var before := run + more[..n];
      assert (run + more)[..|run + more| - 1] == before && (run + more)[|run + more| - 1] == more[n];
      LastStep(server, run + more);
      NearerRun(server, run, more[..n], k, x, left);
      NothingReverts(server, run, more[..n], x);
      LaterMeans(At(Run(server, run).value, x), At(Run(server, before).value, x));
      NearerStep(server, before, k, x, left - StepsOf(more[..n], k), more[n]);
      LastCounts(more, k);
    }
  }

  lemma NoSteps(k: nat)
    ensures StepsOf([], k) == 0
  {}

  lemma LastCounts(more: seq<Action>, k: nat)
    requires more != []
    ensures StepsOf(more, k) == StepsOf(more[..|more| - 1], k) + (if OfLine(more[|more| - 1], k) then 1 else 0)
  {}

  /** In every run and continuation, whatever else happens: after as many steps of its goroutine as
      were ahead of it a stream in line is closed. */
  lemma LineIsServed(server: bool, run: seq<Action>, more: seq<Action>, k: nat, i: nat, x: Id)
    requires Run(server, run + more).Some? && FreshRun(server, run + more)
    requires Run(server, run).Some? && InLine(Run(server, run).value, k, i, x)
    requires StepsOf(more, k) >= StepsAhead(Run(server, run).value.expiries[k], i)
    ensures Closed(At(Run(server, run + more).value, x))
  {
    hide *;
    FreshPrefix(server, run, more);
    LineRun(server, run, x);
    InLineIsStream(Run(server, run).value, k, i, x);
    var left := IsNearer(Run(server, run).value, k, i, x);
    NearerRun(server, run, more, k, x, left);
    NearMeansClosed(Run(server, run + more).value, k, x, left - StepsOf(more, k));
  }

  lemma IsNearer(s: State, k: nat, i: nat, x: Id) returns (left: int)
    requires InLine(s, k, i, x)
    ensures k < |s.expiries| && left == StepsAhead(s.expiries[k], i) && Nearer(s, k, x, left)
  {
    hide StepsAhead;
    left := StepsAhead(s.expiries[k], i);
  }

  lemma NearMeansClosed(s: State, k: nat, x: Id, left: int)
    requires Nearer(s, k, x, left) && left <= 0
    ensures Closed(At(s, x))
  {
    hide Closed, At;
  }

  lemma {:induction false} FreshPrefix(server: bool, run: seq<Action>, more: seq<Action>)
    requires FreshRun(server, run + more)
    ensures FreshRun(server, run)
  {
    if more == [] {
      assert run + more == run;
    } else {
      var n := |more| - 1;
      assert (run + more)[..|run + more| - 1] == run + more[..n];
      hide Run, Fresh;
      FreshPrefix(server, run, more[..n]);
    }
  }

  /** In every run: if its writes return, the goroutine alone gets to close a stream in its line. */
  lemma {:induction false} LineCanBeServed(server: bool, run: seq<Action>, k: nat, i: nat, x: Id)
    returns (more: seq<Action>)
    requires Run(server, run).Some? && FreshRun(server, run) && InLine(Run(server, run).value, k, i, x)
    ensures Run(server, run + more).Some? && FreshRun(server, run + more)
    ensures forall a | a in more :: OfLine(a, k)
    ensures |more| <= StepsAhead(Run(server, run).value.expiries[k], i)
    ensures Closed(At(Run(server, run + more).value, x))
    decreases StepsAhead(Run(server, run).value.expiries[k], i)
  {
    hide *;
    var a, i1 := NextInLine(server, run, k, i, x);
    PositiveAhead(Run(server, run).value, k, i, x);
    if Closed(At(Run(server, run + [a]).value, x)) {
      more := [a];
    } else {
      var rest := LineCanBeServed(server, run + [a], k, i1, x);
      more := [a] + rest;
      assert run + more == (run + [a]) + rest;
    }
  }

  lemma PositiveAhead(s: State, k: nat, i: nat, x: Id)
    requires InLine(s, k, i, x)
    ensures k < |s.expiries| && 1 <= StepsAhead(s.expiries[k], i)
  {}

  lemma NextInLine(server: bool, run: seq<Action>, k: nat, i: nat, x: Id) returns (a: Action, i1: nat)
    requires Run(server, run).Some? && FreshRun(server, run) && InLine(Run(server, run).value, k, i, x)
    ensures Run(server, run + [a]).Some? && FreshRun(server, run + [a]) && OfLine(a, k)
    ensures var s, s1 := Run(server, run).value, Run(server, run + [a]).value;
            Closed(At(s1, x))
            || (InLine(s1, k, i1, x) && StepsAhead(s1.expiries[k], i1) < StepsAhead(s.expiries[k], i))
  {
    var s := Run(server, run).value;
    a, i1 := NextOf(s, k), Onward(s, k, i);
    hide Run, Enabled, Apply, FreshRun, LineInv, Fresh, At;
    LineRun(server, run, s.expiries[k].queue[0]);
    NextIsEnabled(s, k);
    LineGoesOn(s, k, i, x);
    AlwaysFresh(s, a);
    OneMore(server, run, a);
  }

  lemma AlwaysFresh(s: State, a: Action)
    requires !a.Add? && !a.Create?
    ensures Fresh(s, a)
  {}

  lemma OneMore(server: bool, run: seq<Action>, a: Action)
    requires Run(server, run).Some? && FreshRun(server, run) && Enabled(Run(server, run).value, a)
    requires Fresh(Run(server, run).value, a)
    ensures Run(server, run + [a]) == Some(Apply(Run(server, run).value, a)) && FreshRun(server, run + [a])
  {
    hide Enabled, Apply, Fresh;
    assert (run + [a])[..|run|] == run;
  }
}
