/** The bounded priority queue of priority.go: a binary heap kept in the backing array of a
    slice, ordered by (priority, insertId), and sifted as Go's container/heap does. */
module PriorityQueue {
  import opened StableQueue

  const TWO_64 := 0x1_0000_0000_0000_0000

  type uint64 = x: int | 0 <= x < TWO_64

  datatype Entry<F> = Entry(frame: F, priority: uint8, insertId: uint64)

  predicate Less<F>(a: Entry<F>, b: Entry<F>) {
    if a.priority == b.priority then a.insertId < b.insertId else a.priority < b.priority
  }

  // -------------------------------------------------------------------------
  // Heaps as sequences

  function Parent(k: nat): (p: nat)
    requires 0 < k
    ensures p < k
  {
    (k - 1) / 2
  }

  ghost predicate IsHeap<F>(s: seq<Entry<F>>) {
    forall k | 0 < k < |s| :: !Less(s[k], s[Parent(k)])
  }

  /** A heap but for the entry at j, which may be too urgent for its parent. */
  ghost predicate HeapAbove<F>(s: seq<Entry<F>>, j: nat) {
    && (forall k | 0 < k < |s| && k != j :: !Less(s[k], s[Parent(k)]))
    && (forall k | 0 < k < |s| && Parent(k) == j && 0 < j :: !Less(s[k], s[Parent(j)]))
  }

  /** A heap but for the entry at i, which may not be urgent enough for its children. */
  ghost predicate HeapBelow<F>(s: seq<Entry<F>>, i: nat) {
    && (forall k | 0 < k < |s| && Parent(k) != i :: !Less(s[k], s[Parent(k)]))
    && (forall k | 0 < k < |s| && Parent(k) == i && 0 < i :: !Less(s[k], s[Parent(i)]))
  }

  function Swapped<T>(s: seq<T>, i: nat, j: nat): (r: seq<T>)
    requires i < |s| && j < |s|
    ensures |r| == |s|
  {
    s[i := s[j]][j := s[i]]
  }

  lemma SwappedMultiset<T>(s: seq<T>, i: nat, j: nat)
    requires i < |s| && j < |s|
    ensures multiset(Swapped(s, i, j)) == multiset(s)
  {}

  lemma {:induction false} RootIsLeast<F>(s: seq<Entry<F>>, k: nat)
    requires IsHeap(s) && k < |s|
    ensures !Less(s[k], s[0])
    decreases k
  {
    if 0 < k { RootIsLeast(s, Parent(k)); }
  }

  // -------------------------------------------------------------------------
  // The sorted sequence that the heap stands for

  /** Strictly increasing in (priority, insertId). */
  ghost predicate Sorted<F>(s: seq<Entry<F>>) {
    forall i, j | 0 <= i < j < |s| :: Less(s[i], s[j])
  }

  /** The heap holds the entries of the sorted sequence, whose ids were all given out before. */
  ghost predicate StandsFor<F>(heap: seq<Entry<F>>, s: seq<Entry<F>>, pushes: nat) {
    && Sorted(s)
    && multiset(s) == multiset(heap)
    && forall x | x in s :: x.insertId < pushes
  }

  function Items<F>(s: seq<Entry<F>>): (r: seq<Item<F>>)
    ensures |r| == |s|
    ensures forall i | 0 <= i < |s| :: r[i] == Item(s[i].frame, s[i].priority)
  {
    seq(|s|, i requires 0 <= i < |s| => Item(s[i].frame, s[i].priority))
  }

  function InsertEntry<F>(s: seq<Entry<F>>, e: Entry<F>): (r: seq<Entry<F>>)
    ensures |r| == |s| + 1
  {
    if s == [] || e.priority < s[0].priority then [e] + s else [s[0]] + InsertEntry(s[1..], e)
  }

  lemma {:induction false} InsertEntryMultiset<F>(s: seq<Entry<F>>, e: Entry<F>)
    ensures multiset(InsertEntry(s, e)) == multiset(s) + multiset{e}
  {
    if s != [] && s[0].priority <= e.priority {
      InsertEntryMultiset(s[1..], e);
      assert s == [s[0]] + s[1..];
    }
  }

  lemma {:induction false} InsertEntryItems<F>(s: seq<Entry<F>>, e: Entry<F>)
    ensures Items(InsertEntry(s, e)) == Insert(Items(s), Item(e.frame, e.priority))
  {
    if s != [] && s[0].priority <= e.priority {
      InsertEntryItems(s[1..], e);
      assert Items(s)[1..] == Items(s[1..]);
    }
  }

  /** An entry with a fresh, larger insert id goes behind all entries of its priority. */
  lemma {:induction false} InsertEntrySorted<F>(s: seq<Entry<F>>, e: Entry<F>)
    requires Sorted(s)
    requires forall x | x in s :: x.insertId < e.insertId
    ensures Sorted(InsertEntry(s, e))
    ensures forall x | x in InsertEntry(s, e) :: x == e || x in s
  {
    if s != [] && s[0].priority <= e.priority {
      forall x | x in s[1..] ensures x in s && Less(s[0], x) {}
      InsertEntrySorted(s[1..], e);
      var r := InsertEntry(s[1..], e);
      forall x | x in r ensures Less(s[0], x) { if x != e { assert x in s[1..]; } }
    } else if s != [] {
      forall x | x in s ensures Less(e, x) { if x != s[0] { assert Less(s[0], x); } }
    }
  }

  /** In a heap with the contents of a strictly sorted sequence, the root is its first entry. */
  lemma RootIsFirst<F>(heap: seq<Entry<F>>, s: seq<Entry<F>>)
    requires IsHeap(heap) && Sorted(s) && heap != []
    requires multiset(heap) == multiset(s)
    ensures s != [] && heap[0] == s[0]
  {
    assert |s| == |multiset(s)| == |heap|;
    assert heap[0] in multiset(s);
    var i :| 0 <= i < |s| && s[i] == heap[0];
    if 0 < i {
      assert Less(s[0], s[i]);
      assert s[0] in multiset(heap);
      var k :| 0 <= k < |heap| && heap[k] == s[0];
      RootIsLeast(heap, k);
    }
  }

  datatype PopResult<F> = Popped(frame: F) | Drained | Waits

  class PriorityFrameQueue<F(0)> {
    const size: nat
    /** The backing array of the source's slice, whose first len entries are the slice. */
    const queue: array<Entry<F>>
    var len: nat
    var nextInsertId: uint64
    var drain: bool

    ghost var pushes: nat              // the number of pushes so far
    ghost var sorted: seq<Entry<F>>    // what the heap stands for, up to 2^64 pushes

    ghost predicate Valid()
      reads this, queue
    {
      && queue.Length == size
      && len <= size
      && IsHeap(queue[..len])
      && nextInsertId == pushes % TWO_64
      && (pushes <= TWO_64 ==> StandsFor(queue[..len], sorted, pushes))
    }

    /** The stable priority queue that this heap implements. */
    ghost function Contents(): seq<Item<F>>
      reads this
    {
      Items(sorted)
    }

    constructor (size: nat)
      ensures Valid() && fresh(queue)
      ensures this.size == size && Contents() == [] && !drain && pushes == 0 && len == 0
    {
      this.size := size;
      queue := new Entry<F>[size];
      len := 0;
      nextInsertId := 0;
      drain := false;
      pushes := 0;
      sorted := [];
    }

    /** Swaps two of the first n entries. */
    method Swap(i: nat, j: nat, ghost n: nat)
      requires i < n && j < n && n <= queue.Length
      modifies queue
      ensures queue[..n] == Swapped(old(queue[..n]), i, j)
      ensures queue[n..] == old(queue[n..])
      ensures multiset(queue[..n]) == multiset(old(queue[..n]))
    {
      ghost var before := queue[..n];
      queue[i], queue[j] := queue[j], queue[i];
      assert queue[..n] == Swapped(before, i, j);
      SwappedMultiset(before, i, j);
    }

    /** The loop up of container/heap. */
    method Up(start: nat, n: nat)
      requires start < n <= queue.Length
      requires HeapAbove(queue[..n], start)
      modifies queue
      ensures IsHeap(queue[..n])
      ensures multiset(queue[..n]) == multiset(old(queue[..n]))
    {
      var j: nat := start;
      while true
        invariant j < n
        invariant HeapAbove(queue[..n], j)
        invariant multiset(queue[..n]) == multiset(old(queue[..n]))
        decreases j
      {
        var i: nat := if j == 0 then 0 else (j - 1) / 2;  // Go truncates: -1/2 is 0
        if i == j || !Less(queue[j], queue[i]) {
          RaisedIsHeap(queue[..n], j);
          break;
        }
        SiftedUp(queue[..n], j);
        Swap(i, j, n);
        j := i;
      }
    }

    /** The loop down of container/heap, started at the root. */
    method Down(n: nat)
      requires n <= queue.Length
      requires HeapBelow(queue[..n], 0)
      modifies queue
      ensures IsHeap(queue[..n])
      ensures multiset(queue[..n]) == multiset(old(queue[..n]))
      ensures queue[n..] == old(queue[n..])
    {
      hide HeapBelow, IsHeap, Less;
      var i: nat := 0;
      while true
        invariant HeapBelow(queue[..n], i)
        invariant multiset(queue[..n]) == multiset(old(queue[..n]))
        invariant queue[n..] == old(queue[n..])
        decreases n - i
      {
        var j1: nat := 2 * i + 1;
        if n <= j1 {
          ChildlessIsHeap(queue[..n], i);
          break;
        }
        var j: nat := j1;
        var j2: nat := j1 + 1;
        if j2 < n && Less(queue[j2], queue[j1]) { j := j2; }
        LeastChild(queue[..n], i, j);
        if !Less(queue[j], queue[i]) {
          SettledIsHeap(queue[..n], i, j);
          break;
        }
        SiftedDown(queue[..n], i, j);
        Swap(i, j, n);
        i := j;
      }
    }

    /** heap.Push: append, then sift up. */
    method HeapPush(pFrame: Entry<F>)
      requires len < queue.Length && IsHeap(queue[..len])
      modifies this`len, queue
      ensures len == old(len) + 1 <= queue.Length && IsHeap(queue[..len])
      ensures multiset(queue[..len]) == old(multiset(queue[..len])) + multiset{pFrame}
    {
      ghost var before := queue[..len];
      queue[len] := pFrame;
      len := len + 1;
      assert queue[..len] == before + [pFrame];
      AppendedAbove(before, pFrame);
      Up(len - 1, len);
    }

    /** heap.Pop: swap the root with the last entry, sift the new root down, cut the last off. */
    method HeapPop() returns (pFrame: Entry<F>)
      requires 0 < len <= queue.Length && IsHeap(queue[..len])
      modifies this`len, queue
      ensures len == old(len) - 1 && IsHeap(queue[..len])
      ensures pFrame == old(queue[0])
      ensures multiset(queue[..len]) + multiset{pFrame} == old(multiset(queue[..len]))
    {
      ghost var before := queue[..len];
      var n := len - 1;
      Swap(0, n, len);
      ghost var rest := queue[..n];
      assert rest == Swapped(before, 0, n)[..n];
      SwappedRootBelow(before);
      SwappedRootLast(before);
      Down(n);
      assert queue[n] == queue[n..][0] == before[0];
      pFrame := queue[n];
      len := n;
    }

    /** One pass through the body of Push under the lock: a full queue makes the caller wait,
        otherwise the frame goes behind all frames of the same or of a more urgent priority. */
    method Push(frame: F, priority: uint8) returns (waits: bool)
      requires Valid()
      modifies this, queue
      ensures Valid() && drain == old(drain)
      ensures waits == (old(len) == size)
      ensures waits ==> unchanged(this) && unchanged(queue)
      ensures !waits ==>
        && pushes == old(pushes) + 1 && len == old(len) + 1
        && multiset(queue[..len])
             == old(multiset(queue[..len])) + multiset{Entry(frame, priority, old(pushes) % TWO_64)}
        && (pushes <= TWO_64 ==> Contents() == Insert(old(Contents()), Item(frame, priority)))
    {
      if len >= size { return true; }
      waits := false;
      var pFrame := Entry(frame, priority, nextInsertId);
      NextInsertId(pushes);
      nextInsertId := (nextInsertId + 1) % TWO_64;
      ghost var before := queue[..len];
      HeapPush(pFrame);
      if pushes < TWO_64 { PushStandsFor(before, queue[..len], sorted, pFrame, pushes); }
      sorted := InsertEntry(sorted, pFrame);
      pushes := pushes + 1;
    }

    /** One pass through the body of Pop under the lock. */
    method Pop() returns (r: PopResult<F>)
      requires Valid()
      modifies this, queue
      ensures Valid() && drain == old(drain) && pushes == old(pushes)
      ensures old(len) == 0 ==>
        && r == (if drain then Drained else Waits)
        && unchanged(this) && unchanged(queue)
      ensures old(len) > 0 ==>
        && r.Popped? && len == old(len) - 1
        && IsLeastOf(r.frame, old(queue[..len]), queue[..len])
        && (pushes <= TWO_64 ==>
              && old(Contents()) != []
              && r.frame == old(Contents())[0].frame && Contents() == old(Contents())[1..])
    {
      if len == 0 {
        return if drain then Drained else Waits;
      }
      ghost var before := queue[..len];
      var pFrame := HeapPop();
      PoppedIsLeast(before, queue[..len]);
      if pushes <= TWO_64 {
        PopStandsFor(before, queue[..len], sorted, pushes);
        sorted := sorted[1..];
      }
      r := Popped(pFrame.frame);
    }

    method Drain()
      requires Valid()
      modifies this`drain
      ensures Valid() && drain
    {
      drain := true;
    }
  }

  lemma NextInsertId(pushes: nat)
    ensures (pushes % TWO_64 + 1) % TWO_64 == (pushes + 1) % TWO_64
    ensures pushes < TWO_64 ==> pushes % TWO_64 == pushes
  {}

  lemma PushStandsFor<F>(heap: seq<Entry<F>>, pushed: seq<Entry<F>>, s: seq<Entry<F>>, e: Entry<F>, pushes: nat)
    requires StandsFor(heap, s, pushes) && e.insertId == pushes
    requires multiset(pushed) == multiset(heap) + multiset{e}
    ensures StandsFor(pushed, InsertEntry(s, e), pushes + 1)
    ensures Items(InsertEntry(s, e)) == Insert(Items(s), Item(e.frame, e.priority))
  {
    InsertEntryMultiset(s, e);
    InsertEntryItems(s, e);
    InsertEntrySorted(s, e);
  }

  lemma PopStandsFor<F>(heap: seq<Entry<F>>, rest: seq<Entry<F>>, s: seq<Entry<F>>, pushes: nat)
    requires IsHeap(heap) && heap != [] && StandsFor(heap, s, pushes)
    requires multiset(rest) + multiset{heap[0]} == multiset(heap)
    ensures s != [] && s[0] == heap[0]
    ensures StandsFor(rest, s[1..], pushes)
    ensures Items(s[1..]) == Items(s)[1..]
  {
    RootIsFirst(heap, s);
    hide Items, IsHeap;
    RestStandsFor(heap, rest, s);
    assert forall x | x in s[1..] :: x in s;
    ItemsTail(s);
  }

  lemma RestStandsFor<F>(heap: seq<Entry<F>>, rest: seq<Entry<F>>, s: seq<Entry<F>>)
    requires s != [] && heap != [] && s[0] == heap[0] && multiset(s) == multiset(heap)
    requires multiset(rest) + multiset{heap[0]} == multiset(heap)
    ensures multiset(s[1..]) == multiset(rest)
  {
    assert s == [s[0]] + s[1..];
    assert multiset(rest) == multiset(heap) - multiset{heap[0]};
    assert multiset(s[1..]) == multiset(s) - multiset{s[0]};
  }

  lemma ItemsTail<F>(s: seq<Entry<F>>)
    requires s != []
    ensures Items(s[1..]) == Items(s)[1..]
  {}

  // -------------------------------------------------------------------------
  // What popping takes away

  /** f is the frame of an entry of before to which no entry is Less; rest is before without it. */
  ghost predicate IsLeastOf<F>(f: F, before: seq<Entry<F>>, rest: seq<Entry<F>>) {
    exists e | e in before ::
      && e.frame == f
      && multiset(rest) + multiset{e} == multiset(before)
      && forall x | x in before :: !Less(x, e)
  }

  lemma PoppedIsLeast<F>(before: seq<Entry<F>>, rest: seq<Entry<F>>)
    requires IsHeap(before) && before != []
    requires multiset(rest) + multiset{before[0]} == multiset(before)
    ensures IsLeastOf(before[0].frame, before, rest)
  {
    forall x | x in before ensures !Less(x, before[0]) {
      var k :| 0 <= k < |before| && before[k] == x;
      RootIsLeast(before, k);
    }
  }

  // -------------------------------------------------------------------------
  // One sift step

  lemma RaisedIsHeap<F>(s: seq<Entry<F>>, j: nat)
    requires j < |s| && HeapAbove(s, j)
    requires 0 < j ==> !Less(s[j], s[Parent(j)])
    ensures IsHeap(s)
  {}

  lemma SiftedUp<F>(s: seq<Entry<F>>, j: nat)
    requires 0 < j < |s| && HeapAbove(s, j)
    requires Less(s[j], s[Parent(j)])
    ensures HeapAbove(Swapped(s, Parent(j), j), Parent(j))
  {
    var i, r := Parent(j), Swapped(s, Parent(j), j);
    forall k | 0 < k < |s| && k != i ensures !Less(r[k], r[Parent(k)]) {
      if Parent(k) == i && k != j { assert !Less(s[k], s[i]); }
    }
    forall k | 0 < k < |s| && Parent(k) == i && 0 < i ensures !Less(r[k], r[Parent(i)]) {
      assert !Less(s[i], s[Parent(i)]);
      if k != j { assert !Less(s[k], s[i]); }
    }
  }

  /** j is the more urgent child of i. */
  ghost predicate IsLeastChild<F>(s: seq<Entry<F>>, i: nat, j: nat) {
    && 0 < j < |s| && Parent(j) == i
    && forall k | 0 < k < |s| && Parent(k) == i :: !Less(s[k], s[j])
  }

  lemma LeastChild<F>(s: seq<Entry<F>>, i: nat, j: nat)
    requires 2 * i + 1 < |s|
    requires j == if 2 * i + 2 < |s| && Less(s[2 * i + 2], s[2 * i + 1]) then 2 * i + 2 else 2 * i + 1
    ensures IsLeastChild(s, i, j)
  {
    forall k | 0 < k < |s| && Parent(k) == i ensures k == 2 * i + 1 || k == 2 * i + 2 {}
  }

  lemma SiftedDown<F>(s: seq<Entry<F>>, i: nat, j: nat)
    requires HeapBelow(s, i) && IsLeastChild(s, i, j) && Less(s[j], s[i])
    ensures HeapBelow(Swapped(s, i, j), j)
  {
    var r := Swapped(s, i, j);
    forall k | 0 < k < |s| && Parent(k) != j ensures !Less(r[k], r[Parent(k)]) {
      if k == i { assert !Less(s[j], s[Parent(i)]); }
    }
    forall k | 0 < k < |s| && Parent(k) == j ensures !Less(r[k], r[Parent(j)]) {
      assert !Less(s[k], s[j]);
    }
  }

  lemma SettledIsHeap<F>(s: seq<Entry<F>>, i: nat, j: nat)
    requires HeapBelow(s, i) && IsLeastChild(s, i, j) && !Less(s[j], s[i])
    ensures IsHeap(s)
  {}

  lemma ChildlessIsHeap<F>(s: seq<Entry<F>>, i: nat)
    requires HeapBelow(s, i) && |s| <= 2 * i + 1
    ensures IsHeap(s)
  {}

  lemma AppendedAbove<F>(s: seq<Entry<F>>, e: Entry<F>)
    requires IsHeap(s)
    ensures HeapAbove(s + [e], |s|)
  {}

  lemma SwappedRootLast<F>(s: seq<Entry<F>>)
    requires s != []
    ensures multiset(Swapped(s, 0, |s| - 1)[..|s| - 1]) + multiset{s[0]} == multiset(s)
  {
    var n := |s| - 1;
    var r := Swapped(s, 0, n);
    assert r == r[..n] + [s[0]];
    assert multiset(r) == multiset(s);
  }

  lemma SwappedRootBelow<F>(s: seq<Entry<F>>)
    requires IsHeap(s) && s != []
    ensures HeapBelow(Swapped(s, 0, |s| - 1)[..|s| - 1], 0)
  {
    var r := Swapped(s, 0, |s| - 1)[..|s| - 1];
    forall k | 0 < k < |r| && Parent(k) != 0 ensures !Less(r[k], r[Parent(k)]) {
      assert r[k] == s[k] && r[Parent(k)] == s[Parent(k)];
    }
  }

  // -------------------------------------------------------------------------
  // Past 2^64 pushes

  /** The ids of two successive pushes around the end of the counter. */
  lemma WrappedIsLess<F>(older: F, younger: F, priority: uint8, pushes: nat)
    requires pushes % TWO_64 == TWO_64 - 1
    ensures Less(Entry(younger, priority, (pushes + 1) % TWO_64), Entry(older, priority, pushes % TWO_64))
  {
    assert (pushes + 1) % TWO_64 == 0;
  }

  /** After 2^64 - 1 pushes and pops a new queue hands out the last id and then 0 again: of two
      frames of one priority the younger one is popped first, so the bound on the number of
      pushes is needed. */
  method PopsYoungerFirst<F(0)>(older: F, younger: F, priority: uint8) returns (r: PopResult<F>)
    ensures r == Popped(younger)
  {
    var q := new PriorityFrameQueue<F>(2);
    for i := 0 to TWO_64 - 1
      invariant q.Valid() && fresh(q) && fresh(q.queue)
      invariant q.size == 2 && q.len == 0 && q.pushes == i
    {
      var _ := q.Push(older, priority);
      var _ := q.Pop();
    }
    var _ := q.Push(older, priority);
    var _ := q.Push(younger, priority);
    ghost var heap := q.queue[..q.len];
    WrappedIsLess(older, younger, priority, TWO_64 - 1);
    assert multiset(heap) == multiset{Entry(older, priority, TWO_64 - 1), Entry(younger, priority, 0)};
    r := q.Pop();
    HoldsBoth(r.frame, heap, q.queue[..q.len], Entry(older, priority, TWO_64 - 1), Entry(younger, priority, 0));
  }

  /** Whatever is least in a queue of two is the lesser one. */
  lemma HoldsBoth<F>(f: F, heap: seq<Entry<F>>, rest: seq<Entry<F>>, a: Entry<F>, b: Entry<F>)
    requires multiset(heap) == multiset{a, b} && Less(b, a)
    requires IsLeastOf(f, heap, rest)
    ensures f == b.frame
  {
    var e :| e in heap && e.frame == f && multiset(rest) + multiset{e} == multiset(heap)
             && forall x | x in heap :: !Less(x, e);
    assert b in multiset(heap) && e in multiset(heap);
  }
}
