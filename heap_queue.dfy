/** The scheduler's queue entries and the binary min-heap the scheduler keeps
    them in. The heap operations follow CPython's `heapq` module step by
    step (`heappush`, `heappop`, `heapify` and the two sift helpers), so
    the array layout, which decides which entry eviction finds first, is the
    layout the Python list has. */
module HeapQueue {
  import opened Protocol

  /** `(priority.value, -ttd, enqueue_order)`; `negSlack` is the negated
      time to deadline at enqueue. */
  datatype SortKey = SortKey(priority: int, negSlack: int, order: int)

  /** Python's tuple comparison. */
  predicate KeyLt(a: SortKey, b: SortKey)
  {
    a.priority < b.priority ||
    (a.priority == b.priority && a.negSlack < b.negSlack) ||
    (a.priority == b.priority && a.negSlack == b.negSlack && a.order < b.order)
  }

  /** `QueueEntry` is ordered by its sort key alone (the packet and the
      enqueue time are `compare=False`). */
  datatype QueueEntry = QueueEntry(sortKey: SortKey, packet: Packet, enqueueTime: int)

  predicate EntryLt(x: QueueEntry, y: QueueEntry)
  {
    KeyLt(x.sortKey, y.sortKey)
  }

  predicate EntryLe(x: QueueEntry, y: QueueEntry)
  {
    !EntryLt(y, x)
  }

  /** A lower priority value always sorts first. */
  lemma LowerPriorityFirst(a: SortKey, b: SortKey)
    requires a.priority < b.priority
    ensures KeyLt(a, b) && !KeyLt(b, a)
  {
  }

  /** Entries of equal priority and equal slack come out in arrival order. */
  lemma EqualUrgencyIsFifo(a: SortKey, b: SortKey)
    requires a.priority == b.priority && a.negSlack == b.negSlack
    ensures KeyLt(a, b) <==> a.order < b.order
  {
  }

  /** Within one priority, the entry with MORE time left sorts first,
      because the key holds the negated time to deadline. */
  lemma MoreSlackFirst(a: SortKey, b: SortKey, ttdA: int, ttdB: int)
    requires a.priority == b.priority && a.negSlack == -ttdA && b.negSlack == -ttdB
    requires ttdA > ttdB
    ensures KeyLt(a, b) && !KeyLt(b, a)
  {
  }

  // Heap shape: the children of p are 2p + 1 and 2p + 2, so the parent of
  // k > 0 is (k - 1) / 2.

  /** Every parent-child edge whose parent is at index lo or later is in
      order. */
  predicate HeapFrom(a: seq<QueueEntry>, lo: nat)
  {
    forall p, c :: lo <= p < c < |a| && (c == 2 * p + 1 || c == 2 * p + 2) ==> EntryLe(a[p], a[c])
  }

  predicate IsHeap(a: seq<QueueEntry>)
  {
    HeapFrom(a, 0)
  }

  /** `HeapFrom`, except possibly the edge into `pos`. */
  predicate HeapExceptInto(a: seq<QueueEntry>, lo: nat, pos: nat)
  {
    forall p, c :: lo <= p < c < |a| && (c == 2 * p + 1 || c == 2 * p + 2) && c != pos ==> EntryLe(a[p], a[c])
  }

  /** `HeapFrom`, except possibly the edges out of `skip`. */
  predicate HeapExceptFrom(a: seq<QueueEntry>, lo: nat, skip: int)
  {
    forall p, c :: lo <= p < c < |a| && (c == 2 * p + 1 || c == 2 * p + 2) && p != skip ==> EntryLe(a[p], a[c])
  }

  /** `pos` lies in the subtree rooted at `start`. */
  predicate DescendsFrom(pos: nat, start: nat)
    decreases pos
  {
    pos == start || (pos > start && DescendsFrom((pos - 1) / 2, start))
  }

  lemma {:induction false} DescendsFromRoot(pos: nat)
    ensures DescendsFrom(pos, 0)
    decreases pos
  {
    if pos > 0 {
      DescendsFromRoot((pos - 1) / 2);
    }
  }

  lemma UpdateMultiset(s: seq<QueueEntry>, i: nat, v: QueueEntry)
    requires i < |s|
    ensures multiset(s[i := v]) == multiset(s) - multiset{s[i]} + multiset{v}
  {
  }

  /** Moving b[j] into slot i and then x into slot j leaves the same
      elements as writing x into slot i. */
  lemma UpdateSwap(b: seq<QueueEntry>, i: nat, j: nat, x: QueueEntry)
    requires i < |b| && j < |b| && i != j
    ensures multiset(b[i := b[j]][j := x]) == multiset(b[i := x])
  {
    UpdateMultiset(b, i, b[j]);
    UpdateMultiset(b[i := b[j]], j, x);
    UpdateMultiset(b, i, x);
  }

  /** Every child of p is at least x. */
  predicate ChildrenAtLeast(b: seq<QueueEntry>, p: nat, x: QueueEntry)
  {
    forall c :: 2 * p + 1 <= c <= 2 * p + 2 && c < |b| ==> EntryLe(x, b[c])
  }

  /** The parent of p is no greater than p's children: the edge into p may
      be out of order without the grandchildren being affected. */
  predicate GrandparentOrdered(b: seq<QueueEntry>, p: nat)
    requires p < |b|
  {
    p > 0 ==> ChildrenAtLeast(b, p, b[(p - 1) / 2])
  }

  /** One round of `_siftdown`'s loop: the parent moves down into the
      hole, and the hole moves up. */
  lemma SiftDownStep(b: seq<QueueEntry>, startpos: nat, p: nat, newitem: QueueEntry)
    requires startpos < p < |b| && DescendsFrom(p, startpos)
    requires HeapExceptInto(b, startpos, p)
    requires ChildrenAtLeast(b, p, newitem) && GrandparentOrdered(b, p)
    requires EntryLt(newitem, b[(p - 1) / 2])
    ensures var pp := (p - 1) / 2; var b' := b[p := b[pp]];
      startpos <= pp && DescendsFrom(pp, startpos) &&
      HeapExceptInto(b', startpos, pp) && ChildrenAtLeast(b', pp, newitem) &&
      (pp > startpos ==> GrandparentOrdered(b', pp))
  {
    var pp := (p - 1) / 2;
    var b' := b[p := b[pp]];
    forall q, c | startpos <= q < c < |b'| && (c == 2 * q + 1 || c == 2 * q + 2) && c != pp
      ensures EntryLe(b'[q], b'[c])
    {
      if c == p {
        assert q == pp;
      } else if q == p {
        assert b'[c] == b[c];
      } else {
        assert b'[q] == b[q] && b'[c] == b[c];
      }
    }
    forall c | 2 * pp + 1 <= c <= 2 * pp + 2 && c < |b'|
      ensures EntryLe(newitem, b'[c])
    {
      if c != p {
        assert EntryLe(b[pp], b[c]);
      }
    }
    if pp > startpos {
      var g := (pp - 1) / 2;
      assert DescendsFrom(g, startpos);
      assert startpos <= g < pp && (pp == 2 * g + 1 || pp == 2 * g + 2);
      assert EntryLe(b[g], b[pp]);
      forall c | 2 * pp + 1 <= c <= 2 * pp + 2 && c < |b'|
        ensures EntryLe(b'[g], b'[c])
      {
        if c != p {
          assert EntryLe(b[pp], b[c]);
        }
      }
    }
  }

  /** CPython's `_siftdown(heap, startpos, pos)`: the item at the leaf
      `pos` moves up towards `startpos` past every larger parent, the
      parents sliding down into the hole it leaves. */
  method SiftDown(a: seq<QueueEntry>, startpos: nat, pos: nat) returns (r: seq<QueueEntry>)
    requires startpos <= pos < |a|
    requires DescendsFrom(pos, startpos)
    requires 2 * pos + 1 >= |a|
    requires HeapExceptInto(a, startpos, pos)
    ensures |r| == |a| && multiset(r) == multiset(a)
    ensures HeapFrom(r, startpos)
    ensures r[..startpos] == a[..startpos]
  {
    var newitem := a[pos];
    var b := a;
    var p := pos;
    while p > startpos
      invariant startpos <= p <= pos && |b| == |a|
      invariant DescendsFrom(p, startpos)
      invariant HeapExceptInto(b, startpos, p)
      invariant ChildrenAtLeast(b, p, newitem)
      invariant p > startpos ==> GrandparentOrdered(b, p)
      invariant multiset(b[p := newitem]) == multiset(a)
      invariant b[..startpos] == a[..startpos]
    {
      var pp := (p - 1) / 2;
      var parent := b[pp];
      if EntryLt(newitem, parent) {
        SiftDownStep(b, startpos, p, newitem);
        UpdateSwap(b, p, pp, newitem);
        b := b[p := parent];
        p := pp;
      } else {
        break;
      }
    }
    SiftDownDone(b, startpos, p, newitem);
    r := b[p := newitem];
  }

  /** Where `_siftdown` stops, writing the item into the hole completes
      the heap. */
  lemma SiftDownDone(b: seq<QueueEntry>, startpos: nat, p: nat, newitem: QueueEntry)
    requires startpos <= p < |b|
    requires HeapExceptInto(b, startpos, p)
    requires ChildrenAtLeast(b, p, newitem)
    requires p > startpos ==> !EntryLt(newitem, b[(p - 1) / 2])
    ensures HeapFrom(b[p := newitem], startpos)
  {
    var r := b[p := newitem];
    forall q, c | startpos <= q < c < |r| && (c == 2 * q + 1 || c == 2 * q + 2)
      ensures EntryLe(r[q], r[c])
    {
      if c == p {
        assert q == (p - 1) / 2;
      } else if q == p {
        assert r[c] == b[c];
      } else {
        assert r[q] == b[q] && r[c] == b[c];
      }
    }
  }

  /** One round of `_siftup`'s loop: the smaller child moves up into the
      hole and the hole moves down to where that child was. */
  lemma SiftUpStep(b: seq<QueueEntry>, startpos: nat, p: nat, child: nat)
    requires startpos <= p && DescendsFrom(p, startpos)
    requires child == 2 * p + 1 || child == 2 * p + 2
    requires child < |b|
    requires forall c :: 2 * p + 1 <= c <= 2 * p + 2 && c < |b| ==> EntryLe(b[child], b[c])
    requires HeapExceptFrom(b, startpos, if p == startpos then startpos else -1)
    ensures var b' := b[p := b[child]];
      DescendsFrom(child, startpos) && HeapExceptFrom(b', startpos, -1)
  {
    var b' := b[p := b[child]];
    assert (child - 1) / 2 == p;
    forall q, c | startpos <= q < c < |b'| && (c == 2 * q + 1 || c == 2 * q + 2)
      ensures EntryLe(b'[q], b'[c])
    {
      if q == p {
        assert b'[c] == b[c];
      } else if c == p {
        assert EntryLe(b[q], b[p]) && EntryLe(b[p], b[child]);
      } else {
        assert b'[q] == b[q] && b'[c] == b[c];
      }
    }
  }

  /** CPython's `_siftup(heap, pos)`: the hole at `pos` descends to a leaf,
      always towards the smaller child, and then the item that stood at
      `pos` is sifted back up from that leaf. */
  method SiftUp(a: seq<QueueEntry>, pos: nat) returns (r: seq<QueueEntry>)
    requires pos < |a|
    requires HeapFrom(a, pos + 1)
    ensures |r| == |a| && multiset(r) == multiset(a)
    ensures HeapFrom(r, pos)
    ensures r[..pos] == a[..pos]
  {
    var endpos := |a|;
    var startpos := pos;
    var newitem := a[pos];
    var b := a;
    var p := pos;
    var childpos := 2 * p + 1;
    while childpos < endpos
      invariant startpos <= p < |b| && |b| == endpos && childpos == 2 * p + 1
      invariant DescendsFrom(p, startpos)
      invariant HeapExceptFrom(b, startpos, if p == startpos then startpos else -1)
      invariant multiset(b[p := newitem]) == multiset(a)
      invariant b[..startpos] == a[..startpos]
      decreases endpos - childpos
    {
      var rightpos := childpos + 1;
      if rightpos < endpos && !EntryLt(b[childpos], b[rightpos]) {
        childpos := rightpos;
      }
      SiftUpStep(b, startpos, p, childpos);
      UpdateSwap(b, p, childpos, newitem);
      b := b[p := b[childpos]];
      p := childpos;
      childpos := 2 * p + 1;
    }
    SiftUpDone(b, startpos, p, newitem);
    b := b[p := newitem];
    r := SiftDown(b, startpos, p);
  }

  /** At the leaf where `_siftup`'s loop ends, the array with the item
      written back meets `_siftdown`'s precondition. */
  lemma SiftUpDone(b: seq<QueueEntry>, startpos: nat, p: nat, newitem: QueueEntry)
    requires startpos <= p < |b| && 2 * p + 1 >= |b|
    requires HeapExceptFrom(b, startpos, if p == startpos then startpos else -1)
    ensures HeapExceptInto(b[p := newitem], startpos, p)
  {
    var r := b[p := newitem];
    forall q, c | startpos <= q < c < |r| && (c == 2 * q + 1 || c == 2 * q + 2) && c != p
      ensures EntryLe(r[q], r[c])
    {
      assert q != p;
      assert r[q] == b[q] && r[c] == b[c];
    }
  }

  /** `heapq.heappush`. */
  method HeapPush(a: seq<QueueEntry>, item: QueueEntry) returns (r: seq<QueueEntry>)
    requires IsHeap(a)
    ensures IsHeap(r)
    ensures multiset(r) == multiset(a) + multiset{item}
    ensures |r| == |a| + 1
  {
    var b := a + [item];
    DescendsFromRoot(|a|);
    r := SiftDown(b, 0, |a|);
  }

  /** The root of a heap is a least entry. */
  lemma {:induction false} RootIsLeast(a: seq<QueueEntry>, k: nat)
    requires IsHeap(a) && k < |a|
    ensures EntryLe(a[0], a[k])
    decreases k
  {
    if k > 0 {
      RootIsLeast(a, (k - 1) / 2);
    }
  }

  /** `heapq.heappop`: removes and returns a least entry. */
  method HeapPop(a: seq<QueueEntry>) returns (item: QueueEntry, r: seq<QueueEntry>)
    requires IsHeap(a) && |a| > 0
    ensures IsHeap(r)
    ensures multiset(a) == multiset(r) + multiset{item}
    ensures |r| == |a| - 1
    ensures forall x :: x in multiset(r) ==> EntryLe(item, x)
  {
    var last := a[|a| - 1];
    var b := a[..|a| - 1];
    assert a == b + [last];
    if |b| > 0 {
      item := b[0];
      b := b[0 := last];
      assert HeapFrom(b, 1);
      r := SiftUp(b, 0);
    } else {
      item := last;
      r := b;
    }
    forall x | x in multiset(r)
      ensures EntryLe(item, x)
    {
      assert x in multiset(a);
      var k :| 0 <= k < |a| && a[k] == x;
      RootIsLeast(a, k);
    }
  }

  /** `heapq.heapify`: sifts every inner node, from the last one back to
      the root. */
  method Heapify(a: seq<QueueEntry>) returns (r: seq<QueueEntry>)
    ensures IsHeap(r)
    ensures multiset(r) == multiset(a) && |r| == |a|
  {
    var n := |a|;
    r := a;
    var i := n / 2;
    while i > 0
      invariant 0 <= i <= n / 2 && |r| == n
      invariant HeapFrom(r, i)
      invariant multiset(r) == multiset(a)
    {
      i := i - 1;
      r := SiftUp(r, i);
    }
  }
}
