/** The request limiter as a machine of epochs, and how many requests it can let through. */
module RateLimit {
  import opened Common

  /** The limits in force while protection is on. */
  datatype Limits = Limits(maxQPS: int, seconds: int)

  /** The window's length in nanoseconds. */
  function Length(c: Limits): int {
    c.seconds * SECOND
  }

  /** When the window was last reset, and how many requests it has seen since. */
  datatype Epoch = Epoch(start: int, count: nat)

  /** A request at time `at`: it belongs to the epoch, unless a whole window has gone by. */
  function Next(e: Epoch, at: int, c: Limits): Epoch {
    if at - e.start >= Length(c) then Epoch(at, 1) else Epoch(e.start, e.count + 1)
  }

  /** The rate counts the request itself, and has to stay below the limit. */
  predicate Grants(e: Epoch, at: int, c: Limits) {
    Next(e, at, c).count < c.maxQPS * c.seconds
  }

  /** The requests an epoch lets through. */
  function Budget(c: Limits): nat {
    Max(0, c.maxQPS * c.seconds - 1)
  }

  predicate InWindow(at: int, t: int, c: Limits) {
    t <= at < t + Length(c)
  }

  /** Of requests at `times`, the number let through at a time in [t, t + Length(c)). */
  function Accepted(e: Epoch, times: seq<int>, c: Limits, t: int): nat
    decreases |times|
  {
    if times == [] then 0
    else (if Grants(e, times[0], c) && InWindow(times[0], t, c) then 1 else 0)
         + Accepted(Next(e, times[0], c), times[1..], c, t)
  }

  /** Clock readings: none before `from`, and none before the one ahead of it. */
  predicate Clocked(from: int, times: seq<int>)
    decreases |times|
  {
    times == [] || (from <= times[0] && Clocked(times[0], times[1..]))
  }

  /** While an epoch lasts, it lets through its first requests, up to the budget, and no other. */
  lemma {:induction false} EpochExact(e: Epoch, times: seq<int>, c: Limits)
    requires c.seconds >= 1
    requires forall x | x in times :: InWindow(x, e.start, c)
    ensures Accepted(e, times, c, e.start) == Min(|times|, Max(0, Budget(c) - e.count))
    decreases |times|
  {
    if times != [] {
      assert InWindow(times[0], e.start, c);
      EpochExact(Next(e, times[0], c), times[1..], c);
    }
  }

  lemma {:induction false} NothingAfter(e: Epoch, times: seq<int>, c: Limits, from: int, t: int)
    requires Clocked(from, times) && from >= t + Length(c)
    ensures Accepted(e, times, c, t) == 0
    decreases |times|
  {
    if times != [] {
      NothingAfter(Next(e, times[0], c), times[1..], c, times[0], t);
    }
  }

  /** An epoch that began inside the interval outlasts it. */
  lemma {:induction false} LastEpoch(e: Epoch, times: seq<int>, c: Limits, from: int, t: int)
    requires c.seconds >= 1 && Clocked(from, times) && t <= e.start
    ensures Accepted(e, times, c, t) <= Max(0, Budget(c) - e.count)
    decreases |times|
  {
    if times != [] {
      if times[0] < t + Length(c) {
        LastEpoch(Next(e, times[0], c), times[1..], c, times[0], t);
      } else {
        NothingAfter(Next(e, times[0], c), times[1..], c, times[0], t);
      }
    }
  }

  /** Once the interval has begun, there is what the running epoch has left, and one epoch more. */
  lemma {:induction false} LastTwoEpochs(e: Epoch, times: seq<int>, c: Limits, from: int, t: int)
    requires c.seconds >= 1 && Clocked(from, times) && t <= from
    ensures Accepted(e, times, c, t) <= Max(0, Budget(c) - e.count) + Budget(c)
    decreases |times|
  {
    if times != [] {
      if times[0] - e.start >= Length(c) {
        LastEpoch(Next(e, times[0], c), times[1..], c, times[0], t);
      } else {
        LastTwoEpochs(Next(e, times[0], c), times[1..], c, times[0], t);
      }
    }
  }

  /** In no interval as long as the window are more than two budgets let through. */
  lemma {:induction false} TwoBudgets(e: Epoch, times: seq<int>, c: Limits, from: int, t: int)
    requires c.seconds >= 1 && Clocked(from, times)
    ensures Accepted(e, times, c, t) <= 2 * Budget(c)
    decreases |times|
  {
    if times != [] {
      if times[0] < t {
        TwoBudgets(Next(e, times[0], c), times[1..], c, times[0], t);
      } else {
        LastTwoEpochs(e, times, c, times[0], t);
      }
    }
  }

  function Repeat(n: nat, at: int): seq<int> {
    seq(n, _ => at)
  }

  lemma {:induction false} AcceptedConcat(e: Epoch, xs: seq<int>, ys: seq<int>, c: Limits, t: int)
    ensures Accepted(e, xs + ys, c, t) == Accepted(e, xs, c, t) + Accepted(After(e, xs, c), ys, c, t)
    decreases |xs|
  {
    if xs == [] {
      assert xs + ys == ys;
    } else {
      assert (xs + ys)[1..] == xs[1..] + ys;
      AcceptedConcat(Next(e, xs[0], c), xs[1..], ys, c, t);
    }
  }

  function After(e: Epoch, times: seq<int>, c: Limits): Epoch
    decreases |times|
  {
    if times == [] then e else After(Next(e, times[0], c), times[1..], c)
  }

  /** Requests that all come at one time inside the epoch. */
  lemma {:induction false} Volley(e: Epoch, n: nat, at: int, c: Limits, t: int)
    requires InWindow(at, e.start, c) && InWindow(at, t, c)
    ensures Accepted(e, Repeat(n, at), c, t) == Min(n, Max(0, Budget(c) - e.count))
    ensures After(e, Repeat(n, at), c) == Epoch(e.start, e.count + n)
    decreases n
  {
    if n > 0 {
      assert Repeat(n, at)[1..] == Repeat(n - 1, at);
      Volley(Next(e, at, c), n - 1, at, c, t);
    }
  }

  lemma {:induction false} ClockedVolleys(n: nat, at: int, m: nat, later: int, from: int)
    requires from <= at <= later
    ensures Clocked(from, Repeat(n, at) + Repeat(m, later))
    decreases n + m
  {
    var times := Repeat(n, at) + Repeat(m, later);
    if n > 0 {
      assert times[1..] == Repeat(n - 1, at) + Repeat(m, later);
      ClockedVolleys(n - 1, at, m, later, at);
    } else if m > 0 {
      assert times[1..] == Repeat(0, later) + Repeat(m - 1, later);
      ClockedVolleys(0, later, m - 1, later, later);
    }
  }

  /** And two budgets are let through, one just before the window is reset and one as it is: it does not slide. */
  lemma TwoBudgetsReached(start: int, c: Limits) returns (times: seq<int>, t: int)
    requires c.seconds >= 1
    ensures Clocked(start, times) && start <= t
    ensures Accepted(Epoch(start, 0), times, c, t) == 2 * Budget(c)
    ensures forall x | x in times :: t <= x <= t + 1
  {
    t := start + Length(c) - 1;
    var e, n := Epoch(start, 0), Budget(c);
    var first, second := Repeat(n, t), Repeat(n, t + 1);
    times := first + second;
    ClockedVolleys(n, t, n, t + 1, start);
    AcceptedConcat(e, first, second, c, t);
    Volley(e, n, t, c, t);
    SecondVolley(Epoch(start, n), c, n, t);
  }

  lemma SecondVolley(e: Epoch, c: Limits, n: nat, t: int)
    requires c.seconds >= 1 && n == Budget(c) && t + 1 == e.start + Length(c)
    ensures Accepted(e, Repeat(n, t + 1), c, t) == n
  {
    if n > 0 {
      assert Repeat(n, t + 1)[1..] == Repeat(n - 1, t + 1);
      Volley(Epoch(t + 1, 1), n - 1, t + 1, c, t);
    }
  }
}
