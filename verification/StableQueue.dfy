/** What a bounded priority queue of frames promises, stated on sequences: an item goes
    behind every item of the same or of a more urgent priority (priority 0 is the most urgent). */
module StableQueue {

  /** One past the largest value of the source's uint8 priority. */
  const PRIORITIES := 256

  type uint8 = p: int | 0 <= p < PRIORITIES

  datatype Item<F> = Item(frame: F, priority: uint8)

  ghost predicate Ordered<F>(q: seq<Item<F>>) {
    forall i, j | 0 <= i < j < |q| :: q[i].priority <= q[j].priority
  }

  function Insert<F>(q: seq<Item<F>>, e: Item<F>): (r: seq<Item<F>>)
    ensures |r| == |q| + 1
  {
    if q == [] || e.priority < q[0].priority then [e] + q else [q[0]] + Insert(q[1..], e)
  }

  lemma {:induction false} InsertMultiset<F>(q: seq<Item<F>>, e: Item<F>)
    ensures multiset(Insert(q, e)) == multiset(q) + multiset{e}
  {
    if q != [] && q[0].priority <= e.priority {
      InsertMultiset(q[1..], e);
      assert q == [q[0]] + q[1..];
    }
  }

  lemma {:induction false} InsertOrdered<F>(q: seq<Item<F>>, e: Item<F>)
    requires Ordered(q)
    ensures Ordered(Insert(q, e))
    ensures forall x | x in Insert(q, e) :: x == e || x in q
  {
    if q != [] && q[0].priority <= e.priority {
      InsertOrdered(q[1..], e);
      forall x | x in Insert(q[1..], e) ensures q[0].priority <= x.priority {
        if x != e { assert x in q[1..]; }
      }
    }
  }

  /** The insertion point: past a prefix that is not less urgent, in front of a suffix that is. */
  lemma {:induction false} InsertBetween<F>(a: seq<Item<F>>, b: seq<Item<F>>, e: Item<F>)
    requires forall x | x in a :: x.priority <= e.priority
    requires forall x | x in b :: e.priority < x.priority
    ensures Insert(a + b, e) == a + [e] + b
  {
    if a == [] {
      assert a + b == b;
    } else {
      assert (a + b)[1..] == a[1..] + b;
      InsertBetween(a[1..], b, e);
    }
  }

  // -------------------------------------------------------------------------
  // Frames of one class keep their order when their priorities never decrease

  function Select<F>(q: seq<Item<F>>, c: F -> bool): (r: seq<F>) {
    if q == [] then []
    else (if c(q[0].frame) then [q[0].frame] else []) + Select(q[1..], c)
  }

  lemma {:induction false} SelectNone<F>(q: seq<Item<F>>, c: F -> bool)
    requires forall x | x in q :: !c(x.frame)
    ensures Select(q, c) == []
  {
    if q != [] { SelectNone(q[1..], c); }
  }

  lemma {:induction false} SelectAppend<F>(a: seq<Item<F>>, b: seq<Item<F>>, c: F -> bool)
    ensures Select(a + b, c) == Select(a, c) + Select(b, c)
  {
    if a == [] {
      assert a + b == b;
    } else {
      assert (a + b)[1..] == a[1..] + b;
      SelectAppend(a[1..], b, c);
      Regroup(if c(a[0].frame) then [a[0].frame] else [], Select(a[1..], c), Select(b, c));
    }
  }

  lemma Associate<F>(a: seq<Item<F>>, b: seq<Item<F>>, c: seq<Item<F>>)
    ensures a + (b + c) == (a + b) + c
  {}

  lemma Regroup<F>(a: seq<F>, b: seq<F>, c: seq<F>)
    ensures a + (b + c) == (a + b) + c
  {}

  /** Inserting an item of class c appends it to the c-items when none of them is less urgent;
      inserting any other item leaves the c-items as they are. */
  lemma {:induction false} InsertSelect<F>(q: seq<Item<F>>, e: Item<F>, c: F -> bool)
    requires Ordered(q)
    requires c(e.frame) ==> forall x | x in q && c(x.frame) :: x.priority <= e.priority
    ensures Select(Insert(q, e), c) == Select(q, c) + (if c(e.frame) then [e.frame] else [])
  {
    if q == [] || e.priority < q[0].priority {
      if c(e.frame) {
        forall x | x in q ensures !c(x.frame) {}
        SelectNone(q, c);
      }
      assert ([e] + q)[1..] == q;
    } else {
      forall x | x in q[1..] ensures x in q {}
      InsertSelect(q[1..], e, c);
      assert Insert(q, e)[1..] == Insert(q[1..], e);
    }
  }

  lemma {:induction false} SelectMembers<F>(q: seq<Item<F>>, c: F -> bool, f: F)
    ensures f in Select(q, c) <==> exists x :: x in q && c(x.frame) && x.frame == f
  {
    if q != [] {
      SelectMembers(q[1..], c, f);
      assert forall x :: x in q <==> x == q[0] || x in q[1..];
    }
  }

  /** Moving f from the front of a sequence to its end changes nothing exactly if f is all there is. */
  lemma RotateSame<F(!new)>(s: seq<F>, f: F)
    ensures [f] + s == s + [f] <==> forall g | g in s :: g == f
  {
    if [f] + s == s + [f] {
      forall i | 0 <= i < |s| ensures s[i] == f { RotatedAt(s, f, i); }
    }
    if forall g | g in s :: g == f {
      forall i | 0 <= i < |s| ensures s[i] == f { assert s[i] in s; }
      assert [f] + s == s + [f];
    }
  }

  lemma {:induction false} RotatedAt<F>(s: seq<F>, f: F, i: nat)
    requires [f] + s == s + [f] && i < |s|
    ensures s[i] == f
  {
    assert ([f] + s)[i] == (s + [f])[i];
    if i > 0 { RotatedAt(s, f, i - 1); }
  }

  lemma SameBehind<F>(a: seq<F>, b: seq<F>, c: seq<F>)
    ensures a + b == a + c <==> b == c
  {
    if a + b == a + c { assert (a + b)[|a|..] == b && (a + c)[|a|..] == c; }
  }

  /** Inserting an item of class c appends it to the c-items if and only if the c-items that are
      less urgent, in front of which it is put, are all the same as it. */
  lemma {:induction false} InsertSelectExactly<F(!new)>(q: seq<Item<F>>, e: Item<F>, c: F -> bool)
    requires Ordered(q) && c(e.frame)
    ensures Select(Insert(q, e), c) == Select(q, c) + [e.frame]
            <==> forall x | x in q && c(x.frame) && e.priority < x.priority :: x.frame == e.frame
  {
    if q == [] || e.priority < q[0].priority {
      assert ([e] + q)[1..] == q;
      RotateSame(Select(q, c), e.frame);
      forall x | x in q ensures e.priority < x.priority && (c(x.frame) ==> x.frame in Select(q, c)) {
        SelectMembers(q, c, x.frame);
      }
      forall g | g in Select(q, c) ensures exists x :: x in q && c(x.frame) && x.frame == g { SelectMembers(q, c, g); }
    } else {
      var first := if c(q[0].frame) then [q[0].frame] else [];
      InsertSelectExactly(q[1..], e, c);
      assert Insert(q, e)[1..] == Insert(q[1..], e);
      Regroup(first, Select(q[1..], c), [e.frame]);
      SameBehind(first, Select(Insert(q[1..], e), c), Select(q[1..], c) + [e.frame]);
      assert forall x :: x in q <==> x == q[0] || x in q[1..];
    }
  }

  // -------------------------------------------------------------------------
  // Histories of pushes and pops

  datatype Op<F> = Push(item: Item<F>) | Pop

  /** A queue with the frames pushed into it and popped from it so far. */
  datatype History<F> = History(queue: seq<Item<F>>, pushed: seq<Item<F>>, popped: seq<Item<F>>)

  function Step<F>(h: History<F>, op: Op<F>): History<F> {
    match op
    case Push(e) => History(Insert(h.queue, e), h.pushed + [e], h.popped)
    case Pop =>
      if h.queue == [] then h  // the caller sleeps, or learns that the queue is drained
      else History(h.queue[1..], h.pushed, h.popped + [h.queue[0]])
  }

  function Run<F>(ops: seq<Op<F>>): History<F> {
    if ops == [] then History([], [], []) else Step(Run(ops[..|ops| - 1]), ops[|ops| - 1])
  }

  ghost predicate NeverMoreUrgent<F>(q: seq<Item<F>>, c: F -> bool) {
    forall i, j | 0 <= i < j < |q| && c(q[i].frame) && c(q[j].frame) :: q[i].priority <= q[j].priority
  }

  /** Conservation and order over every history: what went in is what came out and what is
      still inside, and the queue is ordered by priority. */
  lemma {:induction false} HistoryConserves<F>(ops: seq<Op<F>>)
    ensures var h := Run(ops);
            && Ordered(h.queue)
            && multiset(h.pushed) == multiset(h.popped) + multiset(h.queue)
  {
    if ops != [] {
      hide *;
      HistoryConserves(ops[..|ops| - 1]);
      StepConserves(Run(ops[..|ops| - 1]), ops[|ops| - 1]);
      RunLast(ops);
    } else {
      assert Ordered(Run(ops).queue);
    }
  }

  lemma RunLast<F>(ops: seq<Op<F>>)
    requires ops != []
    ensures Run(ops) == Step(Run(ops[..|ops| - 1]), ops[|ops| - 1])
  {
    hide Step;
  }

  lemma StepConserves<F>(g: History<F>, op: Op<F>)
    requires Ordered(g.queue) && multiset(g.pushed) == multiset(g.popped) + multiset(g.queue)
    ensures var h := Step(g, op);
            Ordered(h.queue) && multiset(h.pushed) == multiset(h.popped) + multiset(h.queue)
  {
    match op {
      case Push(e) =>
        hide Insert, Ordered;
        InsertOrdered(g.queue, e);
        InsertMultiset(g.queue, e);
      case Pop => if g.queue != [] { assert g.queue == [g.queue[0]] + g.queue[1..]; }
    }
  }

  lemma {:induction false} PushKeepsOrder<F>(g: History<F>, e: Item<F>, c: F -> bool)
    requires Ordered(g.queue)
    requires multiset(g.pushed) == multiset(g.popped) + multiset(g.queue)
    requires NeverMoreUrgent(g.pushed + [e], c)
    requires Select(g.pushed, c) == Select(g.popped, c) + Select(g.queue, c)
    ensures Select(g.pushed + [e], c) == Select(g.popped, c) + Select(Insert(g.queue, e), c)
  {
    forall x | x in g.queue && c(x.frame) && c(e.frame) ensures x.priority <= e.priority {
      QueuedBefore(g, e, c, x);
    }
    hide *;
    InsertSelect(g.queue, e, c);
    SelectAppend(g.pushed, [e], c);
    SelectOne(e, c);
    Regroup(Select(g.popped, c), Select(g.queue, c), if c(e.frame) then [e.frame] else []);
  }

  lemma QueuedBefore<F>(g: History<F>, e: Item<F>, c: F -> bool, x: Item<F>)
    requires multiset(g.pushed) == multiset(g.popped) + multiset(g.queue)
    requires NeverMoreUrgent(g.pushed + [e], c)
    requires x in g.queue && c(x.frame) && c(e.frame)
    ensures x.priority <= e.priority
  {
    var pushed := g.pushed + [e];
    assert x in multiset(g.pushed);
    var i :| 0 <= i < |g.pushed| && g.pushed[i] == x;
    assert pushed[i] == x && pushed[|g.pushed|] == e;
  }

  lemma SelectOne<F>(e: Item<F>, c: F -> bool)
    ensures Select([e], c) == if c(e.frame) then [e.frame] else []
  {
    assert [e][1..] == [];
  }

  lemma {:induction false} PopKeepsOrder<F>(q: seq<Item<F>>, popped: seq<Item<F>>, c: F -> bool)
    requires q != []
    ensures Select(popped, c) + Select(q, c) == Select(popped + [q[0]], c) + Select(q[1..], c)
  {
    var a, b, d := Select(popped, c), Select([q[0]], c), Select(q[1..], c);
    SelectAppend(popped, [q[0]], c);
    SelectOne(q[0], c);
    assert a + (b + d) == (a + b) + d;
  }

  /** Order over every history, however pushes and pops interleave: the frames of a class
      pushed with non-decreasing priorities are popped exactly in the order of their pushes. */
  lemma {:induction false} HistoryFifo<F>(ops: seq<Op<F>>, c: F -> bool)
    requires NeverMoreUrgent(Run(ops).pushed, c)
    ensures var h := Run(ops);
            Select(h.pushed, c) == Select(h.popped, c) + Select(h.queue, c)
  {
    if ops != [] {
      var prefix := ops[..|ops| - 1];
      var g := Run(prefix);
      HistoryConserves(prefix);
      match ops[|ops| - 1] {
        case Push(e) =>
          PrefixNeverMoreUrgent(g.pushed, e, c);
          HistoryFifo(prefix, c);
          PushKeepsOrder(g, e, c);
        case Pop =>
          HistoryFifo(prefix, c);
          if g.queue != [] { PopKeepsOrder(g.queue, g.popped, c); }
      }
    }
  }

  lemma PrefixNeverMoreUrgent<F>(q: seq<Item<F>>, e: Item<F>, c: F -> bool)
    requires NeverMoreUrgent(q + [e], c)
    ensures NeverMoreUrgent(q, c)
  {
    var r := q + [e];
    forall i, j | 0 <= i < j < |q| && c(q[i].frame) && c(q[j].frame)
      ensures q[i].priority <= q[j].priority
    {
      assert r[i] == q[i] && r[j] == q[j];
    }
  }

  // -------------------------------------------------------------------------
  // Pushing everything and then popping everything is a stable sort

  /** The items of priority p, in their order. */
  function Bucket<F>(xs: seq<Item<F>>, p: nat): seq<Item<F>>
  {
    if xs == [] then []
    else (if xs[0].priority == p then [xs[0]] else []) + Bucket(xs[1..], p)
  }

  /** Stable sort, defined without any queue: the buckets of priorities 0, 1, ..., n - 1 in turn. */
  function Buckets<F>(xs: seq<Item<F>>, n: nat): seq<Item<F>>
  {
    if n == 0 then [] else Buckets(xs, n - 1) + Bucket(xs, n - 1)
  }

  function PushAll<F>(xs: seq<Item<F>>): seq<Item<F>> {
    if xs == [] then [] else Insert(PushAll(xs[..|xs| - 1]), xs[|xs| - 1])
  }

  lemma {:induction false} BucketAppend<F>(xs: seq<Item<F>>, e: Item<F>, p: nat)
    ensures Bucket(xs + [e], p) == Bucket(xs, p) + (if e.priority == p then [e] else [])
  {
    if xs == [] {
      assert xs + [e] == [e] && [e][1..] == [];
    } else {
      assert (xs + [e])[1..] == xs[1..] + [e];
      BucketAppend(xs[1..], e, p);
      Associate(if xs[0].priority == p then [xs[0]] else [], Bucket(xs[1..], p), if e.priority == p then [e] else []);
    }
  }

  lemma {:induction false} BucketMembers<F>(xs: seq<Item<F>>, p: nat)
    ensures forall x | x in Bucket(xs, p) :: x.priority == p
  {
    if xs != [] { BucketMembers(xs[1..], p); }
  }

  lemma {:induction false} BucketsMembers<F>(xs: seq<Item<F>>, n: nat)
    ensures forall x | x in Buckets(xs, n) :: x.priority < n
  {
    if n > 0 {
      BucketsMembers(xs, n - 1);
      BucketMembers(xs, n - 1);
    }
  }

  /** Inserting e into the sorted xs gives the sorted xs + [e]: e ends up last in its bucket. */
  lemma {:induction false} BucketsInsert<F>(xs: seq<Item<F>>, e: Item<F>, n: nat)
    ensures Buckets(xs + [e], n) == if e.priority < n then Insert(Buckets(xs, n), e) else Buckets(xs, n)
  {
    if n > 0 {
      BucketsInsert(xs, e, n - 1);
      if e.priority == n - 1 {
        InsertLast(xs, e, n);
      } else if e.priority < n {
        InsertEarlier(xs, e, n);
      } else {
        BucketAppend(xs, e, n - 1);
        assert Bucket(xs + [e], n - 1) == Bucket(xs, n - 1);
      }
    }
  }

  lemma InsertEarlier<F>(xs: seq<Item<F>>, e: Item<F>, n: nat)
    requires e.priority < n - 1
    requires Buckets(xs + [e], n - 1) == Insert(Buckets(xs, n - 1), e)
    ensures Buckets(xs + [e], n) == Insert(Buckets(xs, n), e)
  {
    BucketMembers(xs, n - 1);
    InsertBefore(Buckets(xs, n - 1), Bucket(xs, n - 1), e);
    BucketAppend(xs, e, n - 1);
    assert Bucket(xs + [e], n - 1) == Bucket(xs, n - 1);
  }

  lemma InsertLast<F>(xs: seq<Item<F>>, e: Item<F>, n: nat)
    requires e.priority == n - 1
    requires Buckets(xs + [e], n - 1) == Buckets(xs, n - 1)
    ensures Buckets(xs + [e], n) == Insert(Buckets(xs, n), e)
  {
    BucketAppend(xs, e, n - 1);
    var q := Buckets(xs, n);
    BucketsMembers(xs, n);
    InsertBetween(q, [], e);
    assert q + [] == q;
    assert q + [e] + [] == Buckets(xs, n - 1) + (Bucket(xs, n - 1) + [e]);
  }

  lemma {:induction false} InsertBefore<F>(a: seq<Item<F>>, b: seq<Item<F>>, e: Item<F>)
    requires forall x | x in b :: e.priority < x.priority
    ensures Insert(a + b, e) == Insert(a, e) + b
  {
    if a == [] {
      assert a + b == b;
    } else {
      assert (a + b)[1..] == a[1..] + b;
      if a[0].priority <= e.priority {
        InsertBefore(a[1..], b, e);
        Associate([a[0]], Insert(a[1..], e), b);
      } else {
        Associate([e], a, b);
      }
    }
  }

  /** Popping takes the head each time, so popping all of PushAll(xs) yields it front to back:
      the stable sort of xs by priority. */
  lemma {:induction false} PushAllIsStableSort<F>(xs: seq<Item<F>>, n: nat)
    requires n == PRIORITIES
    ensures PushAll(xs) == Buckets(xs, n)
  {
    hide Buckets, Insert;
    if xs == [] {
      EmptyBuckets<F>(n);
    } else {
      var ys, e := xs[..|xs| - 1], xs[|xs| - 1];
      PushAllIsStableSort(ys, n);
      BucketsInsert(ys, e, n);
      assert ys + [e] == xs;
    }
  }

  lemma {:induction false} EmptyBuckets<F>(n: nat)
    ensures Buckets<F>([], n) == []
  {
    if n > 0 { EmptyBuckets<F>(n - 1); }
  }
}
