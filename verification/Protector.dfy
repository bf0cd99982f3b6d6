/** The overload protector as the gateway runs it: the bucket window, the request limit and the connection count. */
module Protector {
  import opened Common
  import opened RateLimit
  import C = Connections

  function Sum(s: seq<int>): int {
    if s == [] then 0 else Sum(s[..|s| - 1]) + s[|s| - 1]
  }

  lemma {:induction false} SumUpdate(s: seq<int>, i: nat, x: int)
    requires i < |s|
    ensures Sum(s[i := x]) == Sum(s) - s[i] + x
  {
    var front := s[..|s| - 1];
    if i < |s| - 1 {
      SumUpdate(front, i, x);
      assert s[i := x][..|s| - 1] == front[i := x];
    } else {
      assert s[i := x][..|s| - 1] == front;
    }
  }

  /** An addition to the window: how long after its reset, and how much. */
  datatype Addition = Addition(elapsed: int, count: int)

  function Total(adds: seq<Addition>): int {
    if adds == [] then 0 else Total(adds[..|adds| - 1]) + adds[|adds| - 1].count
  }

  /** The bucket in charge at age `elapsed`. */
  function BucketAt(elapsed: int, width: int, n: int): (i: int)
    requires width > 0 && n > 0
    ensures 0 <= i < n
  {
    elapsed / width % n
  }

  /** What was added while the window was between i and i + 1 times `width` old. */
  function Slice(adds: seq<Addition>, width: int, n: int, i: int): int
    requires width > 0 && n > 0
  {
    if adds == [] then 0
    else Slice(adds[..|adds| - 1], width, n, i)
         + if BucketAt(adds[|adds| - 1].elapsed, width, n) == i then adds[|adds| - 1].count else 0
  }

  /** Every addition is in just one slice. */
  lemma {:induction false} SlicesMakeTotal(adds: seq<Addition>, width: int, s: seq<int>)
    requires width > 0 && |s| > 0
    requires forall i | 0 <= i < |s| :: s[i] == Slice(adds, width, |s|, i)
    ensures Sum(s) == Total(adds)
  {
    if adds == [] {
      ZeroSum(s);
    } else {
      var last, front := adds[|adds| - 1], adds[..|adds| - 1];
      var i := BucketAt(last.elapsed, width, |s|);
      var s' := s[i := s[i] - last.count];
      SumUpdate(s, i, s[i] - last.count);
      SlicesMakeTotal(front, width, s');
    }
  }

  lemma {:induction false} ZeroSum(s: seq<int>)
    requires forall i | 0 <= i < |s| :: s[i] == 0
    ensures Sum(s) == 0
  {
    if s != [] {
      ZeroSum(s[..|s| - 1]);
    }
  }

  class SlidingWindow {
    const windowSize: int
    const buckets: array<int>
    const bucketSize: int
    var current: int
    var startTime: int

    /** History: what has been added since the last reset. */
    ghost var adds: seq<Addition>

    ghost predicate Valid()
      reads this, buckets
    {
      && buckets.Length > 0 && bucketSize > 0
      && forall i | 0 <= i < buckets.Length :: buckets[i] == Slice(adds, bucketSize, buckets.Length, i)
    }

    constructor (windowSize: int, bucketCount: nat, now: int)
      requires bucketCount > 0 && windowSize >= bucketCount
      ensures Valid() && fresh(buckets) && this.windowSize == windowSize
      ensures startTime == now && adds == []
    {
      this.windowSize := windowSize;
      buckets := new int[bucketCount](_ => 0);
      bucketSize := windowSize / bucketCount;
      current := 0;
      startTime := now;
      adds := [];
    }

    /** Empties the window. */
    method Clear(now: int)
      requires Valid()
      modifies this, buckets
      ensures Valid() && startTime == now && adds == []
    {
      for i := 0 to buckets.Length
        invariant buckets.Length > 0 && bucketSize > 0
        invariant forall j | 0 <= j < i :: buckets[j] == 0
      {
        buckets[i] := 0;
      }
      startTime := now;
      adds := [];
    }

    /** An addition at or past the end of the window empties it first. Within the window no bucket is ever emptied. */
    method Add(count: int, now: int)
      requires Valid() && startTime <= now
      modifies this, buckets
      ensures Valid()
      ensures startTime == if now - old(startTime) >= windowSize then now else old(startTime)
      ensures adds == (if now - old(startTime) >= windowSize then [] else old(adds))
                      + [Addition(now - startTime, count)]
    {
      var elapsed := now - startTime;
      var bucketIndex := BucketAt(elapsed, bucketSize, buckets.Length);
      if elapsed >= windowSize {
        Clear(now);
        bucketIndex := 0;
      }
      current := bucketIndex;
      Increment(bucketIndex, Addition(now - startTime, count));
    }

    method Increment(i: nat, a: Addition)
      requires Valid() && i < buckets.Length && i == BucketAt(a.elapsed, bucketSize, buckets.Length)
      modifies this`adds, buckets
      ensures Valid() && adds == old(adds) + [a]
    {
      forall j ensures Slice(adds + [a], bucketSize, buckets.Length, j)
                       == Slice(adds, bucketSize, buckets.Length, j) + if j == i then a.count else 0
      {
        assert (adds + [a])[..|adds|] == adds;
      }
      adds := adds + [a];
      buckets[i] := buckets[i] + a.count;
    }

    method GetSum() returns (sum: int)
      requires Valid()
      ensures sum == Total(adds)
    {
      sum := 0;
      for i := 0 to buckets.Length
        invariant sum == Sum(buckets[..i])
      {
        assert buckets[..i + 1][..i] == buckets[..i];
        sum := sum + buckets[i];
      }
      assert buckets[..buckets.Length] == buckets[..];
      SlicesMakeTotal(adds, bucketSize, buckets[..]);
    }

    /** Additions per second, in exact arithmetic. */
    method Rate() returns (rate: real)
      requires Valid() && windowSize > 0
      ensures rate * windowSize as real == Total(adds) as real * SECOND as real
    {
      var sum := GetSum();
      rate := sum as real * SECOND as real / windowSize as real;
    }
  }

  class OverloadProtector {
    const enabled: bool
    const limits: Limits
    const maxConnections: int
    var currentConnections: int
    var connectionsRejected: nat
    var requestsRejected: nat
    const qpsWindow: SlidingWindow

    ghost predicate Valid()
      reads this, qpsWindow, qpsWindow.buckets
    {
      && qpsWindow.Valid() && limits.seconds >= 1 && qpsWindow.windowSize == Length(limits)
      && forall a | a in qpsWindow.adds :: a.count == 1
    }

    ghost function State(): Epoch
      reads this, qpsWindow
    {
      Epoch(qpsWindow.startTime, |qpsWindow.adds|)
    }

    constructor (enabled: bool, limits: Limits, maxConnections: int, now: int)
      requires limits.seconds >= 1
      ensures Valid() && State() == Epoch(now, 0) && currentConnections == 0
      ensures this.enabled == enabled && this.limits == limits && this.maxConnections == maxConnections
      ensures fresh(qpsWindow) && fresh(qpsWindow.buckets)
    {
      this.enabled, this.limits, this.maxConnections := enabled, limits, maxConnections;
      currentConnections, connectionsRejected, requestsRejected := 0, 0, 0;
      qpsWindow := new SlidingWindow(Length(limits), 10, now);
    }

    /** Counts the request; then, when protection is on, the rate decides. */
    method AllowNewRequest(now: int) returns (ok: bool)
      requires Valid() && State().start <= now
      modifies this`requestsRejected, qpsWindow, qpsWindow.buckets
      ensures Valid() && State() == Next(old(State()), now, limits)
      ensures ok <==> enabled ==> Grants(old(State()), now, limits)
      ensures requestsRejected == old(requestsRejected) + if ok then 0 else 1
    {
      qpsWindow.Add(1, now);
      if !enabled {
        return true;
      }
      var currentQPS := qpsWindow.Rate();
      TotalOfOnes(qpsWindow.adds);
      RateAgainst(currentQPS, |qpsWindow.adds|, limits);
      if currentQPS >= limits.maxQPS as real {
        requestsRejected := requestsRejected + 1;
        return false;
      }
      return true;
    }

    method AllowNewConnection() returns (ok: bool)
      modifies this`connectionsRejected
      ensures ok <==> enabled ==> C.HasRoom(currentConnections, maxConnections)
      ensures connectionsRejected == old(connectionsRejected) + if ok then 0 else 1
    {
      if !enabled {
        return true;
      }
      if currentConnections >= maxConnections {
        connectionsRejected := connectionsRejected + 1;
        return false;
      }
      return true;
    }

    method OnConnectionStart()
      modifies this`currentConnections
      ensures currentConnections == old(currentConnections) + 1
    {
      currentConnections := currentConnections + 1;
    }

    method OnConnectionEnd()
      modifies this`currentConnections
      ensures currentConnections == C.Clamped(old(currentConnections) - 1)
    {
      currentConnections := currentConnections - 1;
      if currentConnections < 0 {
        currentConnections := 0;
      }
    }
  }

  lemma {:induction false} TotalOfOnes(adds: seq<Addition>)
    requires forall a | a in adds :: a.count == 1
    ensures Total(adds) == |adds|
  {
    if adds != [] {
      TotalOfOnes(adds[..|adds| - 1]);
    }
  }

  /** Comparing the rate with the limit compares the count with the limit for the whole window. */
  lemma RateAgainst(rate: real, count: int, c: Limits)
    requires c.seconds >= 1 && rate * Length(c) as real == count as real * SECOND as real
    ensures rate < c.maxQPS as real <==> count < c.maxQPS * c.seconds
  {
    var w := c.seconds as real;
    assert rate * w == count as real;
    assert (c.maxQPS * c.seconds) as real == c.maxQPS as real * w;
    if rate < c.maxQPS as real {
      assert rate * w < c.maxQPS as real * w;
    } else {
      assert rate * w >= c.maxQPS as real * w;
    }
  }


  lemma DivisionBounds(x: int, y: int)
    requires x >= 0 && y > 0
    ensures x / y * y <= x < x / y * y + y
  {
  }

  lemma TimesLess(q: int, n: int, y: int)
    requires y > 0 && q * y < n * y
    ensures q < n
  {
  }

  lemma SmallRemainder(q: int, n: int)
    requires 0 <= q < n
    ensures q % n == q
  {
  }

  /** Within the window a bucket holds its own stretch of time. */
  lemma BucketIsItsTime(elapsed: int, width: int, n: int)
    requires width > 0 && n > 0 && 0 <= elapsed < width * n
    ensures BucketAt(elapsed, width, n) * width <= elapsed < BucketAt(elapsed, width, n) * width + width
  {
    var q := elapsed / width;
    DivisionBounds(elapsed, width);
    TimesLess(q, n, width);
    SmallRemainder(q, n);
  }
}
