/** What a client gets back when it reconnects and reports the last number it has seen. */
module HandOff {
  import opened Common
  import opened QueueSpec
  import opened QueueAlgebra
  import opened QueueProgress
  import opened SessionSpec
  import Acks = QueueAcks

  /** The session after a reconnect from `former` and a START that reports `a`. */
  ghost function Resumed(former: Session, id: nat, openID: string, a: nat): Session {
    AfterStart(Inherited(former, id, openID), true, a)
  }

  /** A queue that has sent nothing, expects `n` and holds `sent` for retransmission. */
  ghost predicate Poised(q: Queue, n: nat, sent: map<nat, OrderedMessage>) {
    && q.next == n && q.sent == sent && q.lastAcked == n - 1
    && q.waiting == multiset{} && q.firsts == [] && q.resends == multiset{} && !q.stopped && q.cap == QUEUE_SIZE
  }

  lemma InheritedIsPoised(former: Session, id: nat, openID: string)
    ensures Poised(Inherited(former, id, openID).queue, former.clientAck + 1, former.queue.sent)
  {
  }

  lemma StartIsPoised(q: Queue, n: nat, sent: map<nat, OrderedMessage>, a: nat)
    requires Poised(q, n, sent) && n >= 1
    ensures Poised(AfterResync(AfterAck(q, a), a), Max(n, a + 1), Above(sent, a))
  {
    Acks.AboveTwice(sent, a, a);
  }

  /** Whatever it holds, the resumed queue is fresh and expects the number after the larger acknowledgement. */
  lemma ResumedIsPoised(former: Session, id: nat, openID: string, a: nat)
    ensures var q := Resumed(former, id, openID, a).queue; Poised(q, Max(former.clientAck, a) + 1, q.sent)
  {
    InheritedIsPoised(former, id, openID);
    if a > 0 {
      StartIsPoised(Inherited(former, id, openID).queue, former.clientAck + 1, former.queue.sent, a);
    }
  }

  /**
   The resumed session expects the number after the larger acknowledgement, and holds the
   predecessor's messages above `a`.
   */
  lemma ResumedQueue(former: Session, id: nat, openID: string, a: nat)
    requires 0 !in former.queue.sent
    ensures Poised(Resumed(former, id, openID, a).queue, Max(former.clientAck, a) + 1, Above(former.queue.sent, a))
  {
    InheritedIsPoised(former, id, openID);
    if a == 0 {
      assert Above(former.queue.sent, a) == former.queue.sent;
    } else {
      StartIsPoised(Inherited(former, id, openID).queue, former.clientAck + 1, former.queue.sent, a);
    }
  }

  /** The retransmissions due after the hand-off are those the predecessor would make, above the reported number. */
  lemma RetriesCarryOver(former: Session, id: nat, openID: string, a: nat, now: int, link: nat -> bool)
    requires 0 !in former.queue.sent
    ensures Resent(Resumed(former, id, openID, a).queue, now, link) ==
            set k | k in Resent(former.queue, now, link) && k > a
  {
    ResumedQueue(former, id, openID, a);
  }

  /** A message offered to a poised queue goes out, is parked, or is refused, by its number alone. */
  lemma OfferToPoised(
      q: Queue, n: nat, sent: map<nat, OrderedMessage>, k: nat, data: Bytes, now: int,
      link: nat -> bool, burst: seq<OrderedMessage>)
    requires Poised(q, n, sent) && link(k) && EnqueueEnabled(q, k, link, burst)
    ensures EnqueueOutcome(q, k, link) == if k < n then Stale else Accepted
    ensures var t := AfterEnqueue(q, k, data, now, link, burst);
            && t.firsts == (if k == n then [Transmission(NewMessage(k, data, now), now)] else [])
            && t.waiting == (if k > n then multiset{NewMessage(k, data, now)} else multiset{})
  {
    if k == n {
      assert multiset(burst) == multiset{};
      assert |burst| == |multiset(burst)|;
      assert [NewMessage(k, data, now)] + burst == [NewMessage(k, data, now)];
      TransmitOne(q, NewMessage(k, data, now), now);
    }
  }

  /** Message `c` + 1 goes out at once, is parked, or is refused, as `acked` is c, less, or more. */
  ghost predicate GoesByAck(
      q: Queue, acked: nat, c: nat, data: Bytes, now: int, link: nat -> bool, burst: seq<OrderedMessage>)
  {
    var t := AfterEnqueue(q, c + 1, data, now, link, burst);
    && (t.firsts == [Transmission(NewMessage(c + 1, data, now), now)] <==> acked == c)
    && (t.firsts != [] <==> acked == c)
    && (EnqueueOutcome(q, c + 1, link) == Stale <==> acked > c)
    && (Parked(t.waiting, c + 1) <==> acked < c)
  }

  lemma OfferAtOnceIff(
      q: Queue, acked: nat, c: nat, data: Bytes, now: int, link: nat -> bool, burst: seq<OrderedMessage>)
    requires Poised(q, acked + 1, q.sent) && link(c + 1) && EnqueueEnabled(q, c + 1, link, burst)
    ensures GoesByAck(q, acked, c, data, now, link, burst)
  {
    OfferToPoised(q, acked + 1, q.sent, c + 1, data, now, link, burst);
    assert NewMessage(c + 1, data, now) in multiset{NewMessage(c + 1, data, now)};
  }

  /** The answer takes the number after the inherited counter. */
  lemma ResumedCounter(former: Session, id: nat, openID: string, a: nat)
    ensures Resumed(former, id, openID, a).serverSeq == former.serverSeq
  {
  }

  /**
   The answer goes out at once exactly when the client has acknowledged everything the
   predecessor numbered. If it has not, the answer is parked and nothing goes out; if it
   claims more than that, the answer is refused as stale.
   */
  lemma StartAnsweredAtOnceIff(
      former: Session, id: nat, openID: string, a: nat, data: Bytes, now: int,
      link: nat -> bool, burst: seq<OrderedMessage>)
    requires link(former.serverSeq + 1)
    requires EnqueueEnabled(Resumed(former, id, openID, a).queue, former.serverSeq + 1, link, burst)
    ensures GoesByAck(Resumed(former, id, openID, a).queue, Max(former.clientAck, a), former.serverSeq,
                      data, now, link, burst)
  {
    ResumedIsPoised(former, id, openID, a);
    var acked := Max(former.clientAck, a);
    OfferAtOnceIff(Resumed(former, id, openID, a).queue, acked, former.serverSeq, data, now, link, burst);
  }

  // ---------- The client is behind ----------

  /** The queue once the answer to the START has been offered. */
  ghost function Answered(
      former: Session, id: nat, openID: string, a: nat, data: Bytes, now: int, link: nat -> bool): Queue {
    AfterEnqueue(Resumed(former, id, openID, a).queue, former.serverSeq + 1, data, now, link, [])
  }

  lemma AnswerIsParked(former: Session, id: nat, openID: string, a: nat, data: Bytes, now: int, link: nat -> bool)
    requires Max(former.clientAck, a) < former.serverSeq
    ensures var q := Answered(former, id, openID, a, data, now, link);
            && q.next == Max(former.clientAck, a) + 1 && q.firsts == []
            && q.waiting == multiset{NewMessage(former.serverSeq + 1, data, now)}
  {
    ResumedIsPoised(former, id, openID, a);
  }

  /**
   If the client has not acknowledged all that the predecessor numbered, the answer is
   parked, and nothing new goes out until a resync covers the answer itself. The answer
   is then gone: the client has to acknowledge a number that it was never sent.
   */
  lemma AnswerWaitsForResync(
      former: Session, id: nat, openID: string, a: nat, data: Bytes, now: int, link: nat -> bool,
      states: seq<Queue>, steps: seq<Step>, i: nat)
    requires Max(former.clientAck, a) < former.serverSeq
    requires IsRun(states, steps) && states[0] == Answered(former, id, openID, a, data, now, link) && i < |states|
    requires forall j | 0 <= j < i && steps[j].Enqueue? :: steps[j].n > former.serverSeq + 1
    ensures states[i].next > former.serverSeq + 1 <==> exists j | 0 <= j < i :: Frees(steps[j], former.serverSeq + 1)
    ensures (forall j | 0 <= j < i :: !Frees(steps[j], former.serverSeq + 1)) ==> states[i].firsts == []
  {
    AnswerIsParked(former, id, openID, a, data, now, link);
    SilentUntilResync(states, steps, former.serverSeq + 1, i);
  }

  /**
   The queue once the client has then acknowledged exactly what the predecessor numbered; the
   handlers' ack and resync are the resync.
   */
  ghost function AfterCatchingUp(
      former: Session, id: nat, openID: string, a: nat, data: Bytes, now: int, link: nat -> bool): Queue {
    AfterResync(Answered(former, id, openID, a, data, now, link), former.serverSeq)
  }

  /**
   Catching up exactly does not help: the answer stays parked, now at the expected
   number, and everything new stays behind it.
   */
  lemma CatchingUpStrandsAnswer(
      former: Session, id: nat, openID: string, a: nat, data: Bytes, now: int, link: nat -> bool,
      states: seq<Queue>, steps: seq<Step>, i: nat)
    requires Max(former.clientAck, a) < former.serverSeq
    requires IsRun(states, steps) && states[0] == AfterCatchingUp(former, id, openID, a, data, now, link)
    requires i < |states|
    requires forall j | 0 <= j < i :: !Delivers(steps[j], former.serverSeq + 1)
    ensures states[0].next == former.serverSeq + 1 && Parked(states[0].waiting, former.serverSeq + 1)
    ensures states[i].next > former.serverSeq + 1 <==> exists j | 0 <= j < i :: Frees(steps[j], former.serverSeq + 1)
    ensures (forall j | 0 <= j < i :: !Frees(steps[j], former.serverSeq + 1)) ==> states[i].firsts == []
  {
    var c := former.serverSeq;
    AnswerIsParked(former, id, openID, a, data, now, link);
    assert NewMessage(c + 1, data, now) in multiset{NewMessage(c + 1, data, now)};
    CatchingUpStrands(Answered(former, id, openID, a, data, now, link), c);
    SilentUntilResync(states, steps, c + 1, i);
  }

  lemma CatchingUpStrands(q: Queue, c: nat)
    requires q.next <= c && Parked(q.waiting, c + 1)
    ensures var t := AfterResync(q, c);
            t == AfterResync(AfterAck(q, c), c) && t.next == c + 1 && Parked(t.waiting, c + 1) && t.firsts == q.firsts
  {
    Acks.AckThenResync(q, c);
    ResyncStrands(q, c);
  }

  /**
   Whatever is pushed after the hand-off, answer included, the expected number passes the
   inherited counter only by a resync that covers it, and nothing new goes out before.
   */
  lemma SilentBelowCounter(
      former: Session, id: nat, openID: string, a: nat, states: seq<Queue>, steps: seq<Step>, i: nat)
    requires Max(former.clientAck, a) < former.serverSeq
    requires IsRun(states, steps) && states[0] == Resumed(former, id, openID, a).queue && i < |states|
    requires forall j | 0 <= j < i && steps[j].Enqueue? :: steps[j].n > former.serverSeq
    ensures states[i].next > former.serverSeq <==> exists j | 0 <= j < i :: Frees(steps[j], former.serverSeq)
    ensures (forall j | 0 <= j < i :: !Frees(steps[j], former.serverSeq)) ==> states[i].firsts == []
  {
    ResumedIsPoised(former, id, openID, a);
    SilentUntilResync(states, steps, former.serverSeq, i);
  }

  // ---------- The client is not behind ----------

  /** The pushes among the first `i` steps. */
  function PushCount(steps: seq<Step>, i: nat): nat
    requires i <= |steps|
  {
    if i == 0 then 0 else PushCount(steps, i - 1) + if steps[i - 1].Enqueue? then 1 else 0
  }

  /**
   Step `i` pushes the number after the counter and the pushes before, over a link that
   works; or acknowledges, ticks, or resyncs without skipping.
   */
  ghost predicate PushesOn(q: Queue, steps: seq<Step>, counter: nat, i: nat)
    requires i < |steps|
  {
    match steps[i]
    case Enqueue(n, _, _, link, _) => n == counter + 1 + PushCount(steps, i) && Always(link)
    case Ack(_) => true
    case Resync(a) => a < q.next
    case Cleanup(_) => true
    case Retry(_, _) => true
    case Stop => false
  }

  /** Nothing is parked, and the pushes numbered above `acked`, those up to `last`, have gone out. */
  ghost predicate SentAbove(q: Queue, acked: nat, last: nat) {
    && q.next == Max(acked, last) + 1 && q.waiting == multiset{} && !q.stopped && q.cap == QUEUE_SIZE
    && |q.firsts| == Max(0, last - acked)
    && forall p | 0 <= p < |q.firsts| :: q.firsts[p].msg.serverSeq == acked + 1 + p
  }

  lemma PushAboveClaim(q: Queue, step: Step, acked: nat, last: nat)
    requires SentAbove(q, acked, last) && step.Enqueue? && step.n == last + 1 && Always(step.link) && Enabled(q, step)
    ensures EnqueueOutcome(q, step.n, step.link) == if last + 1 <= acked then Stale else Accepted
    ensures SentAbove(Apply(q, step), acked, last + 1)
  {
    if last + 1 > acked {
      var msg := NewMessage(step.n, step.data, step.now);
      assert |step.burst| == |multiset(step.burst)|;
      assert [msg] + step.burst == [msg];
      TransmitOne(q, msg, step.now);
    }
  }

  lemma QuietAboveClaim(q: Queue, step: Step, acked: nat, last: nat)
    requires SentAbove(q, acked, last) && !step.Enqueue? && !step.Stop? && (step.Resync? ==> step.a < q.next)
    ensures SentAbove(Apply(q, step), acked, last)
  {
    var t := Apply(q, step);
    assert t.waiting == multiset{} && t.firsts == q.firsts && t.next == q.next;
  }

  /** The push numbered `last` + 1 is refused if it is within the claim, and else accepted. */
  ghost predicate Judged(q: Queue, step: Step, acked: nat, last: nat) {
    step.Enqueue? ==> EnqueueOutcome(q, step.n, step.link) == if last + 1 <= acked then Stale else Accepted
  }

  lemma {:induction false} PushesAboveClaim(states: seq<Queue>, steps: seq<Step>, acked: nat, c: nat, i: nat)
    requires IsRun(states, steps) && SentAbove(states[0], acked, c) && i < |states|
    requires forall j: nat | j < |steps| :: PushesOn(states[j], steps, c, j)
    ensures SentAbove(states[i], acked, c + PushCount(steps, i))
  {
    if i > 0 {
      PushesAboveClaim(states, steps, acked, c, i - 1);
      assert StepAt(states, steps, i - 1) && PushesOn(states[i - 1], steps, c, i - 1);
      ClaimStep(states[i - 1], steps, acked, c, i - 1);
    }
  }

  lemma ClaimStep(q: Queue, steps: seq<Step>, acked: nat, c: nat, i: nat)
    requires i < |steps| && SentAbove(q, acked, c + PushCount(steps, i))
    requires PushesOn(q, steps, c, i) && Enabled(q, steps[i])
    ensures SentAbove(Apply(q, steps[i]), acked, c + PushCount(steps, i + 1))
  {
    if steps[i].Enqueue? {
      PushAboveClaim(q, steps[i], acked, c + PushCount(steps, i));
    } else {
      QuietAboveClaim(q, steps[i], acked, c + PushCount(steps, i));
    }
  }

  /**
   If the client has acknowledged all that the predecessor numbered, or claims to have
   acknowledged more, the pushes of the new session, answer included, are refused as stale
   up to the claimed number, and all later ones go out at once; the client need do nothing.
   */
  lemma RefusedUpToClaim(former: Session, id: nat, openID: string, a: nat, states: seq<Queue>, steps: seq<Step>, i: nat)
    requires Max(former.clientAck, a) >= former.serverSeq
    requires IsRun(states, steps) && states[0] == Resumed(former, id, openID, a).queue && i < |states|
    requires forall j: nat | j < |steps| :: PushesOn(states[j], steps, former.serverSeq, j)
    ensures SentAbove(states[i], Max(former.clientAck, a), former.serverSeq + PushCount(steps, i))
    ensures i < |steps| ==>
              Judged(states[i], steps[i], Max(former.clientAck, a), former.serverSeq + PushCount(steps, i))
  {
    ResumedIsPoised(former, id, openID, a);
    var acked, last := Max(former.clientAck, a), former.serverSeq + PushCount(steps, i);
    PushesAboveClaim(states, steps, acked, former.serverSeq, i);
    if i < |steps| && steps[i].Enqueue? {
      assert StepAt(states, steps, i) && PushesOn(states[i], steps, former.serverSeq, i);
      PushAboveClaim(states[i], steps[i], acked, last);
    }
  }
}
