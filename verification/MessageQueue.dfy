/** The min-heap of parked messages, ordered by sequence number. */
module MessageHeap {
  import opened QueueSpec

  function Parent(c: nat): (p: nat)
    requires c > 0
    ensures c == 2 * p + 1 || c == 2 * p + 2
  {
    (c - 1) / 2
  }

  /** Position `c` respects its parent. */
  ghost predicate Settled(items: seq<OrderedMessage>, c: nat)
    requires 0 < c < |items|
  {
    items[Parent(c)].serverSeq <= items[c].serverSeq
  }

  ghost predicate HeapOrdered(items: seq<OrderedMessage>) {
    forall c | 0 < c < |items| :: Settled(items, c)
  }

  /** The children of `i` respect the parent of `i`. */
  ghost predicate Bridged(items: seq<OrderedMessage>, i: nat, n: nat)
    requires i < n <= |items|
  {
    i > 0 ==> forall c | 0 < c < n && Parent(c) == i :: items[Parent(i)].serverSeq <= items[c].serverSeq
  }

  /** A heap, except that `j` may be less than its parent. */
  ghost predicate HeapButUp(items: seq<OrderedMessage>, j: nat)
    requires j < |items|
  {
    && (forall c | 0 < c < |items| && c != j :: Settled(items, c))
    && Bridged(items, j, |items|)
  }

  /** Among the first `n` items, heap order at and below `lo`, except that `i` may exceed its children. */
  ghost predicate HeapButDown(items: seq<OrderedMessage>, lo: nat, i: nat, n: nat)
    requires n <= |items|
  {
    && (forall c | 0 < c < n && Parent(c) >= lo && Parent(c) != i :: Settled(items, c))
    && (lo < i < n ==> Bridged(items, i, n))
  }

  /** Heap order at and below `lo` among the first `n` items. */
  ghost predicate OrderedFrom(items: seq<OrderedMessage>, lo: nat, n: nat)
    requires n <= |items|
  {
    forall c | 0 < c < n && Parent(c) >= lo :: Settled(items, c)
  }

  function Swapped(items: seq<OrderedMessage>, i: nat, j: nat): (r: seq<OrderedMessage>)
    requires i < |items| && j < |items|
    ensures |r| == |items| && multiset(r) == multiset(items)
  {
    items[i := items[j]][j := items[i]]
  }

  lemma SiftUpStep(items: seq<OrderedMessage>, j: nat)
    requires 0 < j < |items| && HeapButUp(items, j)
    requires items[j].serverSeq < items[Parent(j)].serverSeq
    ensures HeapButUp(Swapped(items, Parent(j), j), Parent(j))
  {
    var i := Parent(j);
    var r := Swapped(items, i, j);
    assert i > 0 ==> Settled(items, i);
    forall c | 0 < c < |r| && c != i ensures Settled(r, c) {
      assert c != j ==> Settled(items, c);
    }
    if i > 0 {
      forall c | 0 < c < |r| && Parent(c) == i ensures r[Parent(i)].serverSeq <= r[c].serverSeq {
        assert c != j ==> Settled(items, c);
      }
    }
  }

  ghost predicate SameBeyond(a: seq<OrderedMessage>, b: seq<OrderedMessage>, n: nat) {
    |a| == |b| && forall k | n <= k < |a| :: a[k] == b[k]
  }

  /** `j` is a least child of `i` within the first `n` items. */
  ghost predicate LeastChild(items: seq<OrderedMessage>, i: nat, j: nat, n: nat)
    requires n <= |items|
  {
    && 0 < j < n && Parent(j) == i
    && forall c | 0 < c < n && Parent(c) == i :: items[j].serverSeq <= items[c].serverSeq
  }

  lemma ChosenChildIsLeast(items: seq<OrderedMessage>, i: nat, j: nat, n: nat)
    requires 2 * i + 1 < n <= |items|
    requires j == if 2 * i + 2 < n && items[2 * i + 2].serverSeq < items[2 * i + 1].serverSeq
                  then 2 * i + 2 else 2 * i + 1
    ensures LeastChild(items, i, j, n)
  {
  }

  lemma SiftDownStep(items: seq<OrderedMessage>, lo: nat, i: nat, j: nat, n: nat)
    requires n <= |items| && lo <= i && HeapButDown(items, lo, i, n) && LeastChild(items, i, j, n)
    requires items[j].serverSeq < items[i].serverSeq
    ensures HeapButDown(Swapped(items, i, j), lo, j, n)
    ensures forall was | SameBeyond(was, items, n) :: SameBeyond(was, Swapped(items, i, j), n)
  {
    var r := Swapped(items, i, j);
    forall c | 0 < c < n && Parent(c) >= lo && Parent(c) != j ensures Settled(r, c) {
      if Parent(c) != i {
        assert Settled(items, c);
      }
    }
    forall c | 0 < c < n && Parent(c) == j ensures r[i].serverSeq <= r[c].serverSeq {
      assert Settled(items, c);
    }
  }

  lemma SiftDownDone(items: seq<OrderedMessage>, lo: nat, i: nat, n: nat)
    requires n <= |items| && lo <= i && HeapButDown(items, lo, i, n)
    requires 2 * i + 1 >= n || exists j: nat :: LeastChild(items, i, j, n) && items[i].serverSeq <= items[j].serverSeq
    ensures OrderedFrom(items, lo, n)
  {
  }

  /** The root of a heap is a least element: by induction along the path from `k` to the root. */
  lemma {:induction false} RootIsLeast(items: seq<OrderedMessage>, k: nat)
    requires HeapOrdered(items) && k < |items|
    ensures items[0].serverSeq <= items[k].serverSeq
    decreases k
  {
    if k > 0 {
      assert Settled(items, k);
      RootIsLeast(items, Parent(k));
    }
  }

  lemma RootIsLeastParked(items: seq<OrderedMessage>)
    requires HeapOrdered(items) && |items| > 0
    ensures forall m | m in multiset(items) :: items[0].serverSeq <= m.serverSeq
  {
    forall m | m in multiset(items) ensures items[0].serverSeq <= m.serverSeq {
      assert m in items;
      var k :| 0 <= k < |items| && items[k] == m;
      RootIsLeast(items, k);
    }
  }

  lemma RootSwappedOut(items: seq<OrderedMessage>)
    requires HeapOrdered(items) && |items| > 0
    ensures OrderedFrom(Swapped(items, 0, |items| - 1), 1, |items| - 1)
    ensures Swapped(items, 0, |items| - 1)[|items| - 1] == items[0]
  {
    var n := |items| - 1;
    var r := Swapped(items, 0, n);
    forall c | 0 < c < n && Parent(c) >= 1 ensures Settled(r, c) {
      assert Settled(items, c);
    }
  }

  lemma LastDropped(items: seq<OrderedMessage>)
    requires |items| > 0 && OrderedFrom(items, 0, |items| - 1)
    ensures HeapOrdered(items[..|items| - 1])
    ensures multiset(items[..|items| - 1]) == multiset(items) - multiset{items[|items| - 1]}
  {
    var n := |items| - 1;
    assert items == items[..n] + [items[n]];
    forall c | 0 < c < n ensures Settled(items[..n], c) {
      assert Settled(items, c);
    }
  }

  class MessageQueue {
    var items: seq<OrderedMessage>

    ghost predicate Valid()
      reads this
    {
      HeapOrdered(items)
    }

    constructor (ms: seq<OrderedMessage>)
      ensures Valid() && multiset(items) == multiset(ms)
    {
      items := ms;
      new;
      Init();
    }

    method Swap(i: nat, j: nat)
      requires i < |items| && j < |items|
      modifies this
      ensures items == Swapped(old(items), i, j)
    {
      items := items[i := items[j]][j := items[i]];
    }

    /** Sifts `items[j0]` up from the bottom of a heap. */
    method Up(j0: nat)
      requires j0 < |items| && HeapButUp(items, j0)
      modifies this
      ensures Valid() && multiset(items) == multiset(old(items))
    {
      var j: nat := j0;
      while j > 0 && items[j].serverSeq < items[Parent(j)].serverSeq
        invariant j < |items| && HeapButUp(items, j)
        invariant multiset(items) == multiset(old(items))
        decreases j
      {
        var i := Parent(j);
        SiftUpStep(items, j);
        Swap(i, j);
        j := i;
      }
      assert j > 0 ==> Settled(items, j);
    }

    /** Sifts `items[i0]` down among the first `n` items. */
    method Down(i0: nat, n: nat)
      requires n <= |items| && OrderedFrom(items, i0 + 1, n)
      modifies this
      ensures SameBeyond(old(items), items, n) && OrderedFrom(items, i0, n)
      ensures multiset(items) == multiset(old(items))
    {
      var i: nat := i0;
      while 2 * i + 1 < n
        invariant i0 <= i && SameBeyond(old(items), items, n)
        invariant HeapButDown(items, i0, i, n)
        invariant multiset(items) == multiset(old(items))
        decreases n - i
      {
        var j := 2 * i + 1;
        if j + 1 < n && items[j + 1].serverSeq < items[j].serverSeq {
          j := j + 1;
        }
        ChosenChildIsLeast(items, i, j, n);
        if items[j].serverSeq >= items[i].serverSeq {
          break;
        }
        SiftDownStep(items, i0, i, j, n);
        Swap(i, j);
        i := j;
      }
      SiftDownDone(items, i0, i, n);
    }

    /** Heap order from nothing: every position with a child is sifted down, last first. */
    method Init()
      modifies this
      ensures Valid() && multiset(items) == multiset(old(items))
    {
      var i: int := |items| / 2;
      while i > 0
        invariant 0 <= i && |items| == |old(items)|
        invariant OrderedFrom(items, i, |items|)
        invariant multiset(items) == multiset(old(items))
      {
        i := i - 1;
        Down(i, |items|);
      }
    }

    method Push(m: OrderedMessage)
      requires Valid()
      modifies this
      ensures Valid() && multiset(items) == multiset(old(items)) + multiset{m}
    {
      ghost var was := items;
      items := items + [m];
      assert forall c | 0 < c < |was| :: Settled(was, c) ==> Settled(items, c);
      Up(|items| - 1);
    }

    /** Removes the root, which `RootIsLeastParked` shows to be a least parked message. */
    method Pop() returns (m: OrderedMessage)
      requires Valid() && |items| > 0
      modifies this
      ensures Valid() && m == old(items)[0]
      ensures multiset(items) == multiset(old(items)) - multiset{m}
    {
      var n := |items| - 1;
      RootSwappedOut(items);
      Swap(0, n);
      Down(0, n);
      LastDropped(items);
      m := items[n];
      items := items[..n];
    }
  }
}
