/** Acknowledgement as a join, and the window it keeps. */
module QueueAcks {
  import opened Common
  import opened QueueSpec

  // ---------- Algebra ----------

  lemma AboveTwice(sent: map<nat, OrderedMessage>, a: nat, b: nat)
    ensures Above(Above(sent, a), b) == Above(sent, Max(a, b))
  {
  }

  lemma KeepTwice(w: multiset<OrderedMessage>, a: nat, b: nat)
    ensures Keep(Keep(w, NewerThan(a)), NewerThan(b)) == Keep(w, NewerThan(Max(a, b)))
  {
  }

  /** The handlers' pair, acknowledge then resync, is a resync. */
  lemma AckThenResync(s: Queue, a: nat)
    ensures AfterResync(AfterAck(s, a), a) == AfterResync(s, a)
  {
    AboveTwice(s.sent, a, a);
  }

  /** Two resyncs are one to the larger number, so resync is idempotent and commutative. */
  lemma ResyncJoins(s: Queue, a: nat, b: nat)
    ensures AfterResync(AfterResync(s, a), b) == AfterResync(s, Max(a, b))
    ensures AfterResync(AfterResync(s, a), b) == AfterResync(AfterResync(s, b), a)
    ensures AfterResync(AfterResync(s, a), a) == AfterResync(s, a)
  {
    ResyncJoin(s, a, b);
    ResyncJoin(s, b, a);
    ResyncJoin(s, a, a);
  }

  lemma AdvanceJoin(s: Queue, a: nat, b: nat)
    requires s.next <= a < b
    ensures Advanced(Advanced(s, a), b) == Advanced(s, b)
  {
    KeepTwice(s.waiting, a, b);
    assert s.skipped + Span(s.next, a + 1) + Span(a + 1, b + 1) == s.skipped + Span(s.next, b + 1);
  }

  /** The expected number is moved first and the acknowledgement recorded second, or the other way round. */
  lemma AdvanceThenAck(s: Queue, a: nat, b: nat)
    ensures Advanced(AfterAck(s, a), b) == AfterAck(Advanced(s, b), a)
  {
  }

  lemma AckJoin(s: Queue, a: nat, b: nat)
    ensures AfterAck(AfterAck(s, a), b) == AfterAck(s, Max(a, b))
  {
    AboveTwice(s.sent, a, b);
  }

  lemma ResyncJoin(s: Queue, a: nat, b: nat)
    ensures AfterResync(AfterResync(s, a), b) == AfterResync(s, Max(a, b))
  {
    var moved := if a < s.next then s else Advanced(s, a);
    AdvanceThenAck(moved, a, b);
    AckJoin(moved, a, b);
    if s.next <= a < b {
      AdvanceJoin(s, a, b);
      AckJoin(Advanced(s, b), a, b);
    } else if b >= s.next {
      AckJoin(Advanced(s, b), a, b);
    }
  }

  /** Acknowledging each of `acks` in turn. */
  ghost function AfterAcks(s: Queue, acks: seq<nat>): Queue {
    if acks == [] then s else AfterAck(AfterAcks(s, acks[..|acks| - 1]), acks[|acks| - 1])
  }

  ghost function Maximum(acks: seq<nat>): nat
    requires acks != []
  {
    if |acks| == 1 then acks[0] else Max(Maximum(acks[..|acks| - 1]), acks[|acks| - 1])
  }

  lemma {:induction false} AcksJoin(s: Queue, acks: seq<nat>)
    requires acks != []
    ensures AfterAcks(s, acks) == AfterAck(s, Maximum(acks))
  {
    var init, last := acks[..|acks| - 1], acks[|acks| - 1];
    if init == [] {
      assert AfterAcks(s, init) == s;
    } else {
      AcksJoin(s, init);
      AboveTwice(s.sent, Maximum(init), last);
    }
  }

  // ---------- The window ----------

  /**
   What the counters of a queue mean: everything below `next` has been dealt with, the
   acknowledged numbers are among them, and what is pending lies in between.
   */
  ghost predicate Window(s: Queue) {
    && s.next == s.lastSent + 1
    && s.lastAcked <= s.lastSent
    && forall k | k in s.sent :: s.lastAcked < k <= s.lastSent
  }

  /** An acknowledgement at or below the last one changes nothing. */
  lemma OldAckIsNoOp(s: Queue, a: nat)
    requires Window(s) && a <= s.lastAcked
    ensures AfterAck(s, a) == s && AfterResync(s, a) == s
  {
    assert Above(s.sent, a) == s.sent;
  }

  /** Conversely an acknowledgement that changes nothing is an old one. */
  lemma NoOpIsOldAck(s: Queue, a: nat)
    requires Window(s) && AfterAck(s, a) == s
    ensures a <= s.lastAcked
  {
  }

  lemma PendingFitsWindow(s: Queue)
    requires Window(s)
    ensures |s.sent| <= s.lastSent - s.lastAcked
  {
    var span := Span(s.lastAcked + 1, s.lastSent + 1);
    SpanSize(s.lastAcked + 1, s.lastSent + 1);
    SubsetSize(s.sent.Keys, span);
    assert |s.sent| == |s.sent.Keys|;
  }

  lemma {:induction false} SubsetSize(a: set<nat>, b: set<nat>)
    requires a <= b
    ensures |a| <= |b|
  {
    if a != {} {
      var x :| x in a;
      SubsetSize(a - {x}, b - {x});
    }
  }

  /**
   A queue together with the acknowledgements whose handlers have run the first of
   their two critical sections, the ack, and not yet the second, the resync.
   */
  datatype Handled = Handled(queue: Queue, inFlight: multiset<nat>)

  datatype HandlerStep = Other(step: Step) | BeginAck(a: nat) | FinishAck(a: nat)

  ghost predicate HandlerEnabled(h: Handled, step: HandlerStep) {
    match step
    case Other(inner) => !inner.Ack? && Enabled(h.queue, inner)
    case BeginAck(_) => true
    case FinishAck(a) => a in h.inFlight
  }

  ghost function HandlerApply(h: Handled, step: HandlerStep): Handled {
    match step
    case Other(inner) => h.(queue := Apply(h.queue, inner))
    case BeginAck(a) => Handled(Apply(h.queue, Ack(a)), h.inFlight + multiset{a})
    case FinishAck(a) => Handled(Apply(h.queue, Resync(a)), h.inFlight - multiset{a})
  }

  ghost predicate HandlerStepAt(states: seq<Handled>, steps: seq<HandlerStep>, i: nat)
    requires |states| == |steps| + 1 && i < |steps|
  {
    HandlerEnabled(states[i], steps[i]) && states[i + 1] == HandlerApply(states[i], steps[i])
  }

  ghost predicate IsHandlerRun(states: seq<Handled>, steps: seq<HandlerStep>) {
    |states| == |steps| + 1 && forall i: nat | i < |steps| :: HandlerStepAt(states, steps, i)
  }

  ghost predicate CoveredBy(k: nat, inFlight: multiset<nat>) {
    exists a | a in inFlight :: k <= a
  }

  /** The window, loosened by the handlers that are half way. */
  ghost predicate LooseWindow(h: Handled) {
    var s := h.queue;
    && s.next == s.lastSent + 1
    && (s.lastAcked <= s.lastSent || s.lastAcked in h.inFlight)
    && forall k | k in s.sent :: k <= s.lastSent && (k > s.lastAcked || CoveredBy(k, h.inFlight))
  }

  lemma FinishKeepsLooseWindow(h: Handled, a: nat)
    requires LooseWindow(h) && a in h.inFlight
    ensures LooseWindow(HandlerApply(h, FinishAck(a)))
  {
    var t := HandlerApply(h, FinishAck(a));
    forall k | k in t.queue.sent ensures k <= t.queue.lastSent && (k > t.queue.lastAcked || CoveredBy(k, t.inFlight)) {
      if CoveredBy(k, h.inFlight) {
        var b :| b in h.inFlight && k <= b;
        assert b != a && b in t.inFlight;
      }
    }
  }

  lemma LooseWindowStep(h: Handled, step: HandlerStep)
    requires LooseWindow(h) && HandlerEnabled(h, step)
    ensures LooseWindow(HandlerApply(h, step))
  {
    match step
    case Other(inner) =>
    case BeginAck(a) =>
      forall k | k in h.queue.sent && CoveredBy(k, h.inFlight) ensures CoveredBy(k, h.inFlight + multiset{a}) {
        var b :| b in h.inFlight && k <= b;
        assert b in h.inFlight + multiset{a};
      }
    case FinishAck(a) => FinishKeepsLooseWindow(h, a);
  }

  /** Whenever no handler is half way, the window holds, in every run of a new queue. */
  lemma {:induction false} WindowRun(states: seq<Handled>, steps: seq<HandlerStep>, cap: int, i: nat)
    requires IsHandlerRun(states, steps) && states[0] == Handled(Init(cap), multiset{}) && i < |states|
    ensures LooseWindow(states[i])
    ensures states[i].inFlight == multiset{} ==> Window(states[i].queue)
  {
    if i > 0 {
      WindowRun(states, steps, cap, i - 1);
      assert HandlerStepAt(states, steps, i - 1);
      LooseWindowStep(states[i - 1], steps[i - 1]);
    }
    forall k | k in states[i].queue.sent && states[i].inFlight == multiset{} ensures !CoveredBy(k, states[i].inFlight) {
    }
  }

  // ---------- Clients that acknowledge only what was sent ----------

  /** None of the first `n` steps begins to acknowledge a number that has not been sent. */
  ghost predicate AcksWithinSent(states: seq<Handled>, steps: seq<HandlerStep>, n: nat)
    requires n <= |steps| < |states|
  {
    forall j | 0 <= j < n && steps[j].BeginAck? :: steps[j].a <= states[j].queue.lastSent
  }

  /** The window, and handlers half way only for what was sent. */
  ghost predicate TightWindow(h: Handled) {
    Window(h.queue) && forall a | a in h.inFlight :: a <= h.queue.lastSent
  }

  /** A step keeps the window, unless it acknowledges what was not sent, and the counter of what was sent grows. */
  lemma WindowStep(s: Queue, step: Step)
    requires Window(s) && Enabled(s, step) && (step.Ack? ==> step.a <= s.lastSent)
    ensures Window(Apply(s, step)) && Apply(s, step).lastSent >= s.lastSent
  {
    if step.Enqueue? && EnqueueOutcome(s, step.n, step.link) == Accepted && step.n == s.next {
      TransmitKeepsWindow(s, [NewMessage(step.n, step.data, step.now)] + step.burst, step.now);
    }
  }

  lemma TransmitKeepsWindow(s: Queue, ms: seq<OrderedMessage>, now: int)
    requires Window(s)
    ensures Window(Transmit(s, ms, now)) && Transmit(s, ms, now).lastSent >= s.lastSent
  {
  }

  lemma TightWindowStep(h: Handled, step: HandlerStep)
    requires TightWindow(h) && HandlerEnabled(h, step) && (step.BeginAck? ==> step.a <= h.queue.lastSent)
    ensures TightWindow(HandlerApply(h, step))
  {
    match step
    case Other(inner) => WindowStep(h.queue, inner);
    case BeginAck(a) => WindowStep(h.queue, Ack(a));
    case FinishAck(a) => WindowStep(h.queue, Resync(a));
  }

  /** As long as that is so, the window holds half-way points included. */
  lemma {:induction false} TightWindowRun(states: seq<Handled>, steps: seq<HandlerStep>, cap: int, i: nat)
    requires IsHandlerRun(states, steps) && states[0] == Handled(Init(cap), multiset{}) && i < |states|
    requires AcksWithinSent(states, steps, i)
    ensures TightWindow(states[i])
  {
    if i > 0 {
      TightWindowRun(states, steps, cap, i - 1);
      assert HandlerStepAt(states, steps, i - 1);
      TightWindowStep(states[i - 1], steps[i - 1]);
    }
  }

  /** What is wrong right after an acknowledgement of something not sent. */
  lemma EarlyAck(s: Queue, a: nat)
    requires a > s.lastSent && s.next == s.lastSent + 1
    ensures var t := AfterAck(s, a); t.lastAcked > t.lastSent && a <= t.lastAcked && AfterResync(t, a) != t
  {
  }

  /** At no point does an acknowledgement at or below the last one change anything. */
  ghost predicate OldAcksAreNoOps(states: seq<Handled>) {
    forall i, a: nat | 0 <= i < |states| && a <= states[i].queue.lastAcked :: NoOp(states[i].queue, a)
  }

  ghost predicate NoOp(s: Queue, a: nat) {
    AfterAck(s, a) == s && AfterResync(s, a) == s
  }

  /** This holds of a run exactly when its client acknowledges only what was sent. */
  lemma OldAcksAreNoOpsIff(states: seq<Handled>, steps: seq<HandlerStep>, cap: int)
    requires IsHandlerRun(states, steps) && states[0] == Handled(Init(cap), multiset{})
    ensures OldAcksAreNoOps(states) <==> AcksWithinSent(states, steps, |steps|)
  {
    if AcksWithinSent(states, steps, |steps|) {
      forall i, a: nat | 0 <= i < |states| && a <= states[i].queue.lastAcked ensures NoOp(states[i].queue, a) {
        TightWindowRun(states, steps, cap, i);
        OldAckIsNoOp(states[i].queue, a);
      }
    } else {
      var j :| 0 <= j < |steps| && steps[j].BeginAck? && steps[j].a > states[j].queue.lastSent;
      EarlyAckAt(states, steps, cap, j);
      assert !NoOp(states[j + 1].queue, steps[j].a);
    }
  }

  lemma EarlyAckAt(states: seq<Handled>, steps: seq<HandlerStep>, cap: int, j: nat)
    requires IsHandlerRun(states, steps) && states[0] == Handled(Init(cap), multiset{})
    requires j < |steps| && steps[j].BeginAck? && steps[j].a > states[j].queue.lastSent
    ensures var t := states[j + 1].queue;
            t.lastAcked > t.lastSent && steps[j].a <= t.lastAcked && AfterResync(t, steps[j].a) != t
  {
    WindowRun(states, steps, cap, j);
    assert HandlerStepAt(states, steps, j);
    EarlyAck(states[j].queue, steps[j].a);
  }
}
