/**
 The heap queue as a reorder buffer: with distinct numbers it does what the set of the
 numbers enqueued so far says it should.
 */
module Reordering {
  import opened Common
  import opened QueueSpec
  import opened QueueAlgebra
  import opened QueueHistory

  // ---------- Distinct numbers ----------

  /** Parked numbers are distinct, and none lies below the expected number. */
  ghost predicate Orderly(s: Queue) {
    && (forall m | m in s.waiting :: m.serverSeq >= s.next && s.waiting[m] == 1)
    && (forall m, m' | m in s.waiting && m' in s.waiting && m.serverSeq == m'.serverSeq :: m == m')
  }

  lemma Hit(ms: seq<OrderedMessage>, from: nat, n: nat)
    requires Consecutive(ms, from) && from <= n < from + |ms|
    ensures exists j | 0 <= j < |ms| :: ms[j].serverSeq == n
  {
    assert ms[n - from].serverSeq == n;
  }

  /** Nothing left over from a drain carries one of the drained numbers. */
  lemma RestIsAhead(s: Queue, link: nat -> bool, burst: seq<OrderedMessage>, m: OrderedMessage)
    requires Orderly(s) && !Parked(s.waiting, s.next) && IsBurst(s.waiting, s.next + 1, link, burst)
    requires m in s.waiting - multiset(burst)
    ensures m.serverSeq >= s.next + 1 + |burst|
  {
    var from := s.next + 1;
    forall j | 0 <= j < |burst| ensures m.serverSeq != burst[j].serverSeq {
      assert burst[j] in multiset(burst) && burst[j] in s.waiting;
    }
    assert m in s.waiting && m.serverSeq != s.next;
    if m.serverSeq < from + |burst| {
      Hit(burst, from, m.serverSeq);
    }
  }

  lemma SendStaysOrderly(s: Queue, data: Bytes, now: int, link: nat -> bool, burst: seq<OrderedMessage>)
    requires Orderly(s) && EnqueueEnabled(s, s.next, link, burst) && EnqueueOutcome(s, s.next, link) == Accepted
    requires !Parked(s.waiting, s.next)
    ensures Orderly(AfterEnqueue(s, s.next, data, now, link, burst))
  {
    var t := AfterEnqueue(s, s.next, data, now, link, burst);
    assert t.waiting == s.waiting - multiset(burst);
    forall m | m in t.waiting ensures m.serverSeq >= t.next && m in s.waiting && t.waiting[m] == 1 {
      RestIsAhead(s, link, burst, m);
    }
  }

  lemma ParkStaysOrderly(s: Queue, n: nat, data: Bytes, now: int, link: nat -> bool)
    requires Orderly(s) && EnqueueOutcome(s, n, link) == Accepted && n > s.next
    requires !Parked(s.waiting, n)
    ensures Orderly(AfterEnqueue(s, n, data, now, link, []))
  {
  }

  /** A second copy of a parked number overtakes the first, or is parked beside it. */
  lemma RepeatBreaksOrder(s: Queue, n: nat, data: Bytes, now: int, link: nat -> bool, burst: seq<OrderedMessage>)
    requires Orderly(s) && EnqueueEnabled(s, n, link, burst) && EnqueueOutcome(s, n, link) == Accepted
    requires Parked(s.waiting, n)
    ensures !Orderly(AfterEnqueue(s, n, data, now, link, burst))
  {
    var t := AfterEnqueue(s, n, data, now, link, burst);
    var m :| m in s.waiting && m.serverSeq == n;
    if n == s.next {
      assert burst != [] ==> Surfaces(s.waiting, n + 1, burst, 0);
      assert m in s.waiting - multiset([]);
      assert burst == [];
      assert m in t.waiting && m.serverSeq < t.next;
    } else {
      var added := NewMessage(n, data, now);
      assert m in t.waiting && added in t.waiting;
      assert added == m ==> t.waiting[m] == 2;
    }
  }

  /** An accepted message keeps the queue orderly exactly when its number was not already parked. */
  lemma EnqueueStaysOrderlyIff(s: Queue, n: nat, data: Bytes, now: int, link: nat -> bool, burst: seq<OrderedMessage>)
    requires Orderly(s) && EnqueueEnabled(s, n, link, burst) && EnqueueOutcome(s, n, link) == Accepted
    ensures Orderly(AfterEnqueue(s, n, data, now, link, burst)) <==> !Parked(s.waiting, n)
  {
    if Parked(s.waiting, n) {
      RepeatBreaksOrder(s, n, data, now, link, burst);
    } else if n == s.next {
      SendStaysOrderly(s, data, now, link, burst);
    } else {
      ParkStaysOrderly(s, n, data, now, link);
    }
  }

  lemma OtherStepsStayOrderly(s: Queue, step: Step)
    requires Orderly(s) && !step.Enqueue?
    ensures Orderly(Apply(s, step))
  {
    var t := Apply(s, step);
    forall m | m in t.waiting ensures Stays(s, t, m) {
    }
    FewerStayOrderly(s, t);
  }

  ghost predicate Stays(s: Queue, t: Queue, m: OrderedMessage) {
    m.serverSeq >= t.next && m in s.waiting && t.waiting[m] == s.waiting[m]
  }

  lemma FewerStayOrderly(s: Queue, t: Queue)
    requires Orderly(s) && forall m | m in t.waiting :: Stays(s, t, m)
    ensures Orderly(t)
  {
  }

  // ---------- Refinement ----------

  /** The numbers enqueued so far, with their payloads. */
  type Offered = map<nat, Bytes>

  /** `n` is the least positive number that has not been enqueued. */
  ghost predicate LeastMissing(d: Offered, n: nat) {
    n >= 1 && n !in d && forall k: nat | 1 <= k < n :: k in d
  }

  lemma LeastMissingIsUnique(d: Offered, n: nat, m: nat)
    requires LeastMissing(d, n) && LeastMissing(d, m)
    ensures n == m
  {
  }

  /** The trace is 1, ..., next - 1 in order, each with the payload it was enqueued with. */
  ghost predicate TraceIsPrefix(s: Queue, d: Offered) {
    && |s.firsts| == s.next - 1
    && (forall k: nat | 1 <= k < s.next :: k in d)
    && forall i | 0 <= i < |s.firsts| :: FrameOf(s.firsts[i].msg) == Frame(i + 1, d[i + 1])
  }

  /** What is parked is what has been enqueued beyond the expected number. */
  ghost predicate ParksTheRest(s: Queue, d: Offered) {
    && (forall m | m in s.waiting :: m.serverSeq in d && d[m.serverSeq] == m.data)
    && (forall k | k in d && k > s.next :: Parked(s.waiting, k))
  }

  /** The queue has sent all it can, in order, and holds back exactly the rest. */
  ghost predicate Reorders(s: Queue, d: Offered) {
    Orderly(s) && !s.stopped && LeastMissing(d, s.next) && TraceIsPrefix(s, d) && ParksTheRest(s, d)
  }

  lemma ParkParks(s: Queue, d: Offered, n: nat, data: Bytes, now: int)
    requires ParksTheRest(s, d) && n > s.next && n !in d
    ensures ParksTheRest(s.(waiting := s.waiting + multiset{NewMessage(n, data, now)}), d[n := data])
  {
    var t, added := s.(waiting := s.waiting + multiset{NewMessage(n, data, now)}), NewMessage(n, data, now);
    forall k | k in d[n := data] && k > s.next ensures Parked(t.waiting, k) {
      if k == n {
        assert added in t.waiting;
      } else {
        var m :| m in s.waiting && m.serverSeq == k;
        assert m in t.waiting;
      }
    }
  }

  lemma MoreOfferedKeepsTrace(s: Queue, t: Queue, d: Offered, n: nat, data: Bytes)
    requires TraceIsPrefix(s, d) && t.firsts == s.firsts && t.next == s.next <= n
    ensures TraceIsPrefix(t, d[n := data])
  {
  }

  lemma ParkReorders(s: Queue, d: Offered, n: nat, data: Bytes, now: int, link: nat -> bool)
    requires Reorders(s, d) && n > s.next && n !in d && |s.waiting| < s.cap
    ensures Reorders(AfterEnqueue(s, n, data, now, link, []), d[n := data])
  {
    var t := AfterEnqueue(s, n, data, now, link, []);
    assert !Parked(s.waiting, n);
    ParkStaysOrderly(s, n, data, now, link);
    ParkParks(s, d, n, data, now);
    MoreOfferedKeepsTrace(s, t, d, n, data);
  }

  /** A drain over a link that works stops only at a number that has not been enqueued. */
  lemma DrainReachesGap(s: Queue, d: Offered, link: nat -> bool, burst: seq<OrderedMessage>)
    requires Reorders(s, d) && Always(link) && IsBurst(s.waiting, s.next + 1, link, burst)
    ensures s.next + 1 + |burst| !in d
    ensures forall i | 0 <= i < |burst| :: burst[i].serverSeq in d && d[burst[i].serverSeq] == burst[i].data
  {
    forall i | 0 <= i < |burst| ensures burst[i] in s.waiting {
      assert burst[i] in multiset(burst);
    }
    var rest, stop := s.waiting - multiset(burst), s.next + 1 + |burst|;
    assert !Parked(s.waiting, s.next);
    forall m | m in rest ensures m.serverSeq >= stop {
      RestIsAhead(s, link, burst, m);
    }
    assert !Covered(rest, stop) && !Parked(rest, stop);
    forall m | m in s.waiting ensures m.serverSeq != stop {
      assert m !in burst ==> m in rest;
    }
    assert !Parked(s.waiting, stop);
  }

  lemma SendTraces(s: Queue, d: Offered, ms: seq<OrderedMessage>, now: int)
    requires TraceIsPrefix(s, d) && s.next >= 1 && Consecutive(ms, s.next)
    requires forall i | 0 <= i < |ms| :: ms[i].serverSeq in d && d[ms[i].serverSeq] == ms[i].data
    ensures TraceIsPrefix(Transmit(s, ms, now), d)
  {
    var t := Transmit(s, ms, now);
    forall k: nat | 1 <= k < t.next ensures k in d {
      if k >= s.next {
        Hit(ms, s.next, k);
      }
    }
    forall i | 0 <= i < |t.firsts| ensures FrameOf(t.firsts[i].msg) == Frame(i + 1, d[i + 1]) {
      if i >= |s.firsts| {
        assert t.firsts[i].msg == ms[i - |s.firsts|];
      }
    }
  }

  lemma SendExtendsTrace(s: Queue, d: Offered, msg: OrderedMessage, now: int, burst: seq<OrderedMessage>)
    requires TraceIsPrefix(s, d) && LeastMissing(d, s.next) && msg.serverSeq == s.next && Consecutive(burst, s.next + 1)
    requires forall i | 0 <= i < |burst| :: burst[i].serverSeq in d && d[burst[i].serverSeq] == burst[i].data
    requires s.next + 1 + |burst| !in d
    ensures var t, e := Transmit(s, [msg] + burst, now), d[s.next := msg.data];
            TraceIsPrefix(t, e) && LeastMissing(e, t.next)
  {
    var e := d[s.next := msg.data];
    MoreOfferedKeepsTrace(s, s, d, s.next, msg.data);
    SendTraces(s, e, [msg], now);
    SendTraces(Transmit(s, [msg], now), e, burst, now);
    TransmitConcat(s, [msg], burst, now);
  }

  lemma SendParks(s: Queue, d: Offered, data: Bytes, t: Queue, burst: seq<OrderedMessage>)
    requires ParksTheRest(s, d) && Consecutive(burst, s.next + 1)
    requires t.waiting == s.waiting - multiset(burst) && t.next == s.next + 1 + |burst|
    requires !Parked(s.waiting, s.next)
    ensures ParksTheRest(t, d[s.next := data])
  {
    forall m | m in t.waiting ensures m in s.waiting && m.serverSeq != s.next {
    }
    forall k | k in d[s.next := data] && k > t.next ensures Parked(t.waiting, k) {
      StaysParked(s, burst, k);
    }
  }

  lemma StaysParked(s: Queue, burst: seq<OrderedMessage>, k: nat)
    requires Consecutive(burst, s.next + 1) && k >= s.next + 1 + |burst| && Parked(s.waiting, k)
    ensures Parked(s.waiting - multiset(burst), k)
  {
    var m :| m in s.waiting && m.serverSeq == k;
    assert m !in burst;
    assert m in s.waiting - multiset(burst);
  }

  lemma SendReorders(s: Queue, d: Offered, data: Bytes, now: int, link: nat -> bool, burst: seq<OrderedMessage>)
    requires Reorders(s, d) && Always(link) && |s.waiting| < s.cap
    requires IsBurst(s.waiting, s.next + 1, link, burst)
    ensures Reorders(AfterEnqueue(s, s.next, data, now, link, burst), d[s.next := data])
  {
    var msg := NewMessage(s.next, data, now);
    var t, e := AfterEnqueue(s, s.next, data, now, link, burst), d[s.next := data];
    assert !Parked(s.waiting, s.next);
    assert Orderly(t) by {
      SendStaysOrderly(s, data, now, link, burst);
    }
    assert TraceIsPrefix(t, e) && LeastMissing(e, t.next) by {
      DrainReachesGap(s, d, link, burst);
      SendExtendsTrace(s, d, msg, now, burst);
    }
    assert ParksTheRest(t, e) by {
      SendParks(s, d, data, t, burst);
    }
  }

  /** A new number that finds room is accepted, and the queue reorders what has then been enqueued. */
  lemma EnqueueReorders(
      s: Queue, d: Offered, n: nat, data: Bytes, now: int, link: nat -> bool,
      burst: seq<OrderedMessage>)
    requires Reorders(s, d) && Always(link) && |s.waiting| < s.cap && n >= 1 && n !in d
    requires EnqueueEnabled(s, n, link, burst)
    ensures EnqueueOutcome(s, n, link) == Accepted
    ensures Reorders(AfterEnqueue(s, n, data, now, link, burst), d[n := data])
  {
    assert n >= s.next;
    if n == s.next {
      SendReorders(s, d, data, now, link, burst);
    } else {
      ParkReorders(s, d, n, data, now, link);
    }
  }

  // ---------- Runs ----------

  /** What a run has enqueued after `i` steps. */
  ghost function OfferedBy(steps: seq<Step>, i: nat): Offered
    requires i <= |steps|
  {
    if i == 0 then map[]
    else WithOffer(OfferedBy(steps, i - 1), steps[i - 1])
  }

  /** What has been enqueued once `step` has been taken. */
  function WithOffer(d: Offered, step: Step): Offered {
    if step.Enqueue? then d[step.n := step.data] else d
  }

  /**
   A new positive number enqueued over a link that works, with room to park it; an ack; a
   resync that skips nothing; a retry round; a tick at which nothing parked has expired.
   */
  ghost predicate Harmless(s: Queue, d: Offered, step: Step) {
    match step
    case Enqueue(n, _, _, link, _) => n >= 1 && n !in d && Always(link) && |s.waiting| < s.cap
    case Ack(_) => true
    case Resync(a) => a < s.next
    case Cleanup(now) => forall m | m in s.waiting :: Timely(now)(m)
    case Retry(_, _) => true
    case Stop => false
  }

  lemma QuietReorders(s: Queue, t: Queue, d: Offered)
    requires Reorders(s, d) && t.waiting == s.waiting && t.next == s.next
    requires t.firsts == s.firsts && t.stopped == s.stopped
    ensures Reorders(t, d)
  {
  }

  lemma HarmlessReorders(s: Queue, d: Offered, step: Step)
    requires Reorders(s, d) && Enabled(s, step) && Harmless(s, d, step)
    ensures Reorders(Apply(s, step), WithOffer(d, step))
    ensures step.Enqueue? ==> EnqueueOutcome(s, step.n, step.link) == Accepted
  {
    if step.Enqueue? {
      EnqueueReorders(s, d, step.n, step.data, step.now, step.link, step.burst);
    } else {
      assert step.Cleanup? ==> Keep(s.waiting, Timely(step.now)) == s.waiting;
      QuietReorders(s, Apply(s, step), d);
    }
  }

  ghost predicate Undisturbed(states: seq<Queue>, steps: seq<Step>, i: nat)
    requires i < |steps| < |states|
  {
    Harmless(states[i], OfferedBy(steps, i), steps[i])
  }

  /** Refinement: throughout an undisturbed run the queue does what the set of enqueued numbers prescribes. */
  lemma {:induction false} Refinement(states: seq<Queue>, steps: seq<Step>, cap: int, i: nat)
    requires IsRun(states, steps) && states[0] == Init(cap) && i < |states|
    requires forall j: nat | j < i :: Undisturbed(states, steps, j)
    ensures Reorders(states[i], OfferedBy(steps, i))
  {
    if i > 0 {
      Refinement(states, steps, cap, i - 1);
      assert StepAt(states, steps, i - 1) && Undisturbed(states, steps, i - 1);
      HarmlessReorders(states[i - 1], OfferedBy(steps, i - 1), steps[i - 1]);
    }
  }

  // ---------- The heap over any run ----------

  /** Parking is refused when the heap is full, and nothing else adds to it. */
  lemma StepKeepsCapacity(s: Queue, step: Step)
    requires Enabled(s, step) && |s.waiting| <= Max(0, s.cap)
    ensures |Apply(s, step).waiting| <= Max(0, s.cap) && Apply(s, step).cap == s.cap
  {
    match step
    case Enqueue(n, _, _, link, burst) =>
      if EnqueueOutcome(s, n, link) == Accepted && n == s.next {
        FewerIsNoMore(s.waiting - multiset(burst), s.waiting);
      }
    case Ack(a) =>
    case Resync(a) => FewerIsNoMore(Keep(s.waiting, NewerThan(a)), s.waiting);
    case Cleanup(now) => FewerIsNoMore(Keep(s.waiting, Timely(now)), s.waiting);
    case Retry(_, _) =>
    case Stop =>
  }

  lemma FewerIsNoMore(a: multiset<OrderedMessage>, b: multiset<OrderedMessage>)
    requires a <= b
    ensures |a| <= |b|
  {
    assert b == a + (b - a);
  }

  /** In no state of any run are more messages parked than the queue has room for. */
  lemma {:induction false} NeverOverCapacity(states: seq<Queue>, steps: seq<Step>, cap: int, i: nat)
    requires IsRun(states, steps) && states[0] == Init(cap) && i < |states|
    ensures |states[i].waiting| <= Max(0, cap) && states[i].cap == cap
  {
    if i > 0 {
      NeverOverCapacity(states, steps, cap, i - 1);
      assert StepAt(states, steps, i - 1);
      StepKeepsCapacity(states[i - 1], steps[i - 1]);
    }
  }

  /** Only what has been enqueued is parked. */
  ghost predicate ParksOffered(s: Queue, d: Offered) {
    forall m | m in s.waiting :: m.serverSeq in d
  }

  lemma StepParksOffered(s: Queue, d: Offered, step: Step)
    requires Enabled(s, step) && ParksOffered(s, d)
    ensures ParksOffered(Apply(s, step), WithOffer(d, step))
  {
  }

  lemma DistinctEnqueueStaysOrderly(s: Queue, d: Offered, step: Step)
    requires Orderly(s) && ParksOffered(s, d) && Enabled(s, step) && step.Enqueue? && step.n !in d
    ensures Orderly(Apply(s, step))
  {
    assert !Parked(s.waiting, step.n);
    if EnqueueOutcome(s, step.n, step.link) == Accepted {
      EnqueueStaysOrderlyIff(s, step.n, step.data, step.now, step.link, step.burst);
    }
  }

  /**
   In every run that enqueues no number twice, whatever is acknowledged, resynchronised,
   expired, retried, refused or fails in between, every parked number is at least the
   expected one, and is parked once.
   */
  lemma {:induction false} ParkedAhead(states: seq<Queue>, steps: seq<Step>, cap: int, i: nat)
    requires IsRun(states, steps) && states[0] == Init(cap) && i < |states|
    requires forall j: nat | j < i && steps[j].Enqueue? :: steps[j].n !in OfferedBy(steps, j)
    ensures Orderly(states[i]) && ParksOffered(states[i], OfferedBy(steps, i))
  {
    if i > 0 {
      ParkedAhead(states, steps, cap, i - 1);
      assert StepAt(states, steps, i - 1);
      var s, d, step := states[i - 1], OfferedBy(steps, i - 1), steps[i - 1];
      StepParksOffered(s, d, step);
      if step.Enqueue? {
        DistinctEnqueueStaysOrderly(s, d, step);
      } else {
        OtherStepsStayOrderly(s, step);
      }
    }
  }

  /** The steps enqueue a permutation of 1, ..., n over a link that works. */
  ghost predicate EnqueuesPermutation(steps: seq<Step>) {
    && (forall i | 0 <= i < |steps| :: steps[i].Enqueue? && Always(steps[i].link) && 1 <= steps[i].n <= |steps|)
    && (forall i, j | 0 <= i < j < |steps| :: steps[i].n != steps[j].n)
    && (forall k: nat | 1 <= k <= |steps| :: EnqueuedBefore(steps, |steps|, k))
  }

  ghost predicate EnqueuedBefore(steps: seq<Step>, i: nat, k: nat)
    requires i <= |steps|
  {
    exists j | 0 <= j < i :: steps[j].Enqueue? && steps[j].n == k
  }

  lemma {:induction false} OfferedKeys(steps: seq<Step>, i: nat, k: nat)
    requires i <= |steps|
    ensures k in OfferedBy(steps, i) <==> EnqueuedBefore(steps, i, k)
  {
    if i > 0 {
      OfferedKeys(steps, i - 1, k);
      if EnqueuedBefore(steps, i - 1, k) {
        var j :| 0 <= j < i - 1 && steps[j].Enqueue? && steps[j].n == k;
        assert 0 <= j < i;
      }
      assert steps[i - 1].Enqueue? && steps[i - 1].n == k ==> EnqueuedBefore(steps, i, k);
    }
  }

  lemma {:induction false} ParksAtMostOnePerStep(states: seq<Queue>, steps: seq<Step>, cap: int, i: nat)
    requires IsRun(states, steps) && states[0] == Init(cap) && i < |states|
    requires forall j | 0 <= j < |steps| :: steps[j].Enqueue?
    ensures |states[i].waiting| <= i && states[i].cap == cap
  {
    if i > 0 {
      ParksAtMostOnePerStep(states, steps, cap, i - 1);
      assert StepAt(states, steps, i - 1);
    }
  }

  lemma PermutationIsUndisturbed(states: seq<Queue>, steps: seq<Step>, cap: int, j: nat)
    requires IsRun(states, steps) && states[0] == Init(cap) && EnqueuesPermutation(steps) && |steps| <= cap
    requires j < |steps|
    ensures Undisturbed(states, steps, j)
  {
    ParksAtMostOnePerStep(states, steps, cap, j);
    OfferedKeys(steps, j, steps[j].n);
  }

  /**
   However 1, ..., n are shuffled, a queue with room for them sends 1, ..., n in order, each
   with its payload, and ends up with an empty heap.
   */
  lemma PermutationIsSorted(states: seq<Queue>, steps: seq<Step>, cap: int)
    requires IsRun(states, steps) && states[0] == Init(cap) && EnqueuesPermutation(steps) && |steps| <= cap
    ensures var n, end := |steps|, states[|steps|];
            && end.next == n + 1 && end.waiting == multiset{} && |end.firsts| == n
            && forall i | 0 <= i < n :: EnqueuedWith(steps, i + 1, end.firsts[i].msg)
  {
    var n, end, d := |steps|, states[|steps|], OfferedBy(steps, |steps|);
    forall j: nat | j < n ensures Undisturbed(states, steps, j) {
      PermutationIsUndisturbed(states, steps, cap, j);
    }
    Refinement(states, steps, cap, n);
    forall k: nat ensures k in d <==> 1 <= k <= n {
      OfferedKeys(steps, n, k);
    }
    assert LeastMissing(d, n + 1);
    LeastMissingIsUnique(d, end.next, n + 1);
    assert end.waiting == multiset{};
    forall i | 0 <= i < n ensures EnqueuedWith(steps, i + 1, end.firsts[i].msg) {
      OfferedWith(steps, n, i + 1);
    }
  }

  /** `m` is what was enqueued under number `k`. */
  ghost predicate EnqueuedWith(steps: seq<Step>, k: nat, m: OrderedMessage) {
    exists j | 0 <= j < |steps| :: steps[j].Enqueue? && steps[j].n == k == m.serverSeq && steps[j].data == m.data
  }

  lemma {:induction false} OfferedWith(steps: seq<Step>, i: nat, k: nat)
    requires i <= |steps| && k in OfferedBy(steps, i)
    ensures exists j | 0 <= j < i :: steps[j].Enqueue? && steps[j].n == k && steps[j].data == OfferedBy(steps, i)[k]
  {
    if i > 0 && !(steps[i - 1].Enqueue? && steps[i - 1].n == k) {
      OfferedWith(steps, i - 1, k);
    }
  }
}
