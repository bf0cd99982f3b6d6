/**
 What every run of a queue keeps: which numbers have been put on the wire, in which
 order, how often, and what became of each of them. Numbers need not be distinct.
 */
module QueueHistory {
  import opened Common
  import opened QueueSpec
  import opened QueueAlgebra

  // ---------- The stream of first transmissions ----------

  ghost predicate TransmittedAt(s: Queue, i: int, k: nat) {
    0 <= i < |s.firsts| && s.firsts[i].msg.serverSeq == k
  }

  ghost predicate Transmitted(s: Queue, k: nat) {
    exists i :: TransmittedAt(s, i, k)
  }

  ghost predicate InOrder(s: Queue) {
    forall i, j | 0 <= i < j < |s.firsts| :: s.firsts[i].msg.serverSeq < s.firsts[j].msg.serverSeq
  }

  /**
   First transmissions go out in increasing order, and the numbers below `next` fall
   into two classes: those transmitted and those a resync stepped over.
   */
  ghost predicate Stream(s: Queue) {
    && s.next >= 1
    && InOrder(s)
    && (forall i | 0 <= i < |s.firsts| ::
          1 <= s.firsts[i].msg.serverSeq < s.next && s.firsts[i].msg.serverSeq !in s.skipped)
    && (forall k | k in s.skipped :: 1 <= k < s.next)
    && (forall k: nat | 1 <= k < s.next :: k in s.skipped || Transmitted(s, k))
  }

  lemma TransmitOneKeepsStream(s: Queue, m: OrderedMessage, now: int)
    requires Stream(s) && m.serverSeq == s.next
    ensures Stream(Transmit(s, [m], now))
  {
    TransmitOne(s, m, now);
    var t := Transmit(s, [m], now);
    forall k: nat | 1 <= k < t.next ensures k in t.skipped || Transmitted(t, k) {
      if k == s.next {
        assert TransmittedAt(t, |s.firsts|, k);
      } else if k !in s.skipped {
        assert Transmitted(s, k);
        var i :| TransmittedAt(s, i, k);
        assert TransmittedAt(t, i, k);
      }
    }
  }

  ghost predicate Consecutive(ms: seq<OrderedMessage>, from: nat) {
    forall i | 0 <= i < |ms| :: ms[i].serverSeq == from + i
  }

  lemma {:induction false} TransmitKeepsStream(s: Queue, ms: seq<OrderedMessage>, now: int)
    requires Stream(s) && Consecutive(ms, s.next)
    ensures Stream(Transmit(s, ms, now))
  {
    if ms == [] {
      DrainedNothing(s, n => true, now);
    } else {
      var init, last := ms[..|ms| - 1], ms[|ms| - 1];
      TransmitKeepsStream(s, init, now);
      TransmitOneKeepsStream(Transmit(s, init, now), last, now);
      TransmitConcat(s, init, [last], now);
      assert ms == init + [last];
    }
  }

  lemma StreamLooksAt(s: Queue, t: Queue)
    requires Stream(s) && t.firsts == s.firsts && t.next == s.next && t.skipped == s.skipped
    ensures Stream(t)
  {
    forall k: nat | Transmitted(s, k) ensures Transmitted(t, k) {
      var i :| TransmittedAt(s, i, k);
      assert TransmittedAt(t, i, k);
    }
  }

  lemma ResyncKeepsStream(s: Queue, a: nat)
    requires Stream(s)
    ensures Stream(AfterResync(s, a))
  {
    var t := AfterResync(s, a);
    forall k: nat | 1 <= k < t.next ensures k in t.skipped || Transmitted(t, k) {
      if k < s.next && Transmitted(s, k) {
        var i :| TransmittedAt(s, i, k);
        assert TransmittedAt(t, i, k);
      }
    }
  }

  lemma EnqueueKeepsStream(s: Queue, n: nat, data: Bytes, now: int, link: nat -> bool, burst: seq<OrderedMessage>)
    requires Stream(s) && EnqueueEnabled(s, n, link, burst)
    ensures Stream(AfterEnqueue(s, n, data, now, link, burst))
  {
    var t := AfterEnqueue(s, n, data, now, link, burst);
    if EnqueueOutcome(s, n, link) == Accepted && n == s.next {
      var ms := [NewMessage(n, data, now)] + burst;
      TransmitKeepsStream(s, ms, now);
      StreamLooksAt(Transmit(s, ms, now), t);
    } else {
      StreamLooksAt(s, t);
    }
  }

  lemma StreamStep(s: Queue, step: Step)
    requires Stream(s) && Enabled(s, step)
    ensures Stream(Apply(s, step))
  {
    match step
    case Enqueue(n, data, now, link, burst) => EnqueueKeepsStream(s, n, data, now, link, burst);
    case Resync(a) => ResyncKeepsStream(s, a);
    case _ => StreamLooksAt(s, Apply(s, step));
  }

  lemma {:induction false} StreamRun(states: seq<Queue>, steps: seq<Step>, i: nat)
    requires IsRun(states, steps) && Stream(states[0]) && i < |states|
    ensures Stream(states[i])
  {
    if i > 0 {
      StreamRun(states, steps, i - 1);
      assert StepAt(states, steps, i - 1);
      StreamStep(states[i - 1], steps[i - 1]);
    }
  }

  /** History only grows: what has been transmitted stays so, at the same place. */
  ghost predicate Grows(s: Queue, t: Queue) {
    s.firsts <= t.firsts && s.resends <= t.resends && s.next <= t.next && s.lastAcked <= t.lastAcked
  }

  lemma GrowsStep(s: Queue, step: Step)
    requires Enabled(s, step)
    ensures Grows(s, Apply(s, step))
  {
  }

  lemma GrowsTrans(s: Queue, t: Queue, u: Queue)
    requires Grows(s, t) && Grows(t, u)
    ensures Grows(s, u)
  {
  }

  lemma {:induction false} GrowsRun(states: seq<Queue>, steps: seq<Step>, i: nat, j: nat)
    requires IsRun(states, steps) && i <= j < |states|
    ensures Grows(states[i], states[j])
    decreases j
  {
    if i < j {
      GrowsRun(states, steps, i, j - 1);
      assert StepAt(states, steps, j - 1);
      GrowsStep(states[j - 1], steps[j - 1]);
      GrowsTrans(states[i], states[j - 1], states[j]);
    }
  }

  /** Before state `i`, some resync stepped over `k`. */
  ghost predicate ResyncedOver(states: seq<Queue>, steps: seq<Step>, i: nat, k: nat)
    requires i <= |steps| < |states|
  {
    exists j | 0 <= j < i :: steps[j].Resync? && states[j].next <= k <= steps[j].a
  }

  /**
   No overtaking: when a number goes out for the first time, every lower number went
   out before it or had been stepped over by a resync.
   */
  lemma NoOvertaking(states: seq<Queue>, steps: seq<Step>, i: nat, p: nat, k: nat)
    requires IsRun(states, steps) && Stream(states[0]) && i < |states|
    requires p < |states[i].firsts| && 1 <= k < states[i].firsts[p].msg.serverSeq
    ensures k in states[i].skipped || exists q | 0 <= q < p :: TransmittedAt(states[i], q, k)
    ensures k in states[i].skipped ==> k in states[0].skipped || ResyncedOver(states, steps, i, k)
  {
    StreamRun(states, steps, i);
    var s := states[i];
    if k !in s.skipped {
      var q :| TransmittedAt(s, q, k);
      assert q < p;
    } else {
      SkippedByResync(states, steps, i, k);
    }
  }

  lemma {:induction false} SkippedByResync(states: seq<Queue>, steps: seq<Step>, i: nat, k: nat)
    requires IsRun(states, steps) && i < |states| && k in states[i].skipped
    ensures k in states[0].skipped || ResyncedOver(states, steps, i, k)
  {
    if i > 0 {
      if k in states[i - 1].skipped {
        SkippedByResync(states, steps, i - 1, k);
      } else {
        assert StepAt(states, steps, i - 1);
      }
    }
  }

  // ---------- Conservation ----------

  /** The frame of the `i`th first transmission. */
  ghost function FirstFrame(s: Queue, i: nat): Frame
    requires i < |s.firsts|
  {
    FrameOf(s.firsts[i].msg)
  }

  /** How often the `i`th transmitted message has been put on the wire. */
  ghost function TimesSent(s: Queue, i: nat): nat
    requires i < |s.firsts|
  {
    1 + s.resends[FirstFrame(s, i)]
  }

  /** Message `i` is still waiting for an acknowledgement, and its entry agrees with the wire. */
  ghost predicate Pending(s: Queue, i: nat)
    requires i < |s.firsts|
  {
    var f := FirstFrame(s, i);
    f.serverSeq in s.sent && s.sent[f.serverSeq].data == f.data && s.sent[f.serverSeq].retries == s.resends[f]
  }

  /** Message `i` is pending, acknowledged, or has been tried as often as the retry limit allows. */
  ghost predicate Accounted(s: Queue, i: nat)
    requires i < |s.firsts|
  {
    && TimesSent(s, i) <= 1 + MAX_RETRIES
    && (Pending(s, i) || s.firsts[i].msg.serverSeq <= s.lastAcked || TimesSent(s, i) == 1 + MAX_RETRIES || s.stopped)
  }

  ghost predicate PendingKey(s: Queue, k: nat) {
    exists i: nat | i < |s.firsts| :: FirstFrame(s, i).serverSeq == k && Pending(s, i)
  }

  ghost predicate SentBefore(s: Queue, f: Frame) {
    exists i: nat | i < |s.firsts| :: FirstFrame(s, i) == f
  }

  /**
   Every transmitted message is accounted for, and nothing else is ever retransmitted
   or kept for retransmission.
   */
  ghost predicate Ledger(s: Queue) {
    && (forall i: nat | i < |s.firsts| :: Accounted(s, i))
    && (forall k | k in s.sent :: PendingKey(s, k))
    && (forall f | f in s.resends :: SentBefore(s, f))
    && (forall m | m in s.waiting :: m.retries == 0)
    && (s.stopped ==> s.sent == map[] && s.waiting == multiset{})
  }

  /** The expected number is above everything transmitted so far. */
  ghost predicate Ahead(s: Queue) {
    InOrder(s) && forall i | 0 <= i < |s.firsts| :: s.firsts[i].msg.serverSeq < s.next
  }

  /** `t` extends `s` by one first transmission of `m`, and differs in nothing else the ledger looks at. */
  ghost predicate OneMore(s: Queue, m: OrderedMessage, t: Queue) {
    && |t.firsts| == |s.firsts| + 1
    && (forall i | 0 <= i < |s.firsts| :: t.firsts[i] == s.firsts[i])
    && t.firsts[|s.firsts|].msg == m
    && t.sent == s.sent[s.next := m.(sent := true)]
    && t.resends == s.resends && t.lastAcked == s.lastAcked && t.stopped == s.stopped && t.waiting == s.waiting
  }

  /** A message already transmitted keeps its account when one more goes out. */
  lemma OneMoreAccounts(s: Queue, m: OrderedMessage, t: Queue, i: nat)
    requires OneMore(s, m, t) && InOrder(s) && i < |s.firsts| && s.firsts[i].msg.serverSeq < s.next
    ensures FirstFrame(t, i) == FirstFrame(s, i)
    ensures Pending(s, i) ==> Pending(t, i)
    ensures Accounted(s, i) ==> Accounted(t, i)
  {
  }

  lemma OneMorePends(s: Queue, m: OrderedMessage, t: Queue, k: nat)
    requires OneMore(s, m, t) && Ahead(s) && k != s.next && PendingKey(s, k)
    ensures PendingKey(t, k)
  {
    var i: nat :| i < |s.firsts| && FirstFrame(s, i).serverSeq == k && Pending(s, i);
    OneMoreAccounts(s, m, t, i);
    assert FirstFrame(t, i).serverSeq == k && Pending(t, i);
  }

  lemma OneMoreRemembers(s: Queue, m: OrderedMessage, t: Queue, f: Frame)
    requires OneMore(s, m, t) && SentBefore(s, f)
    ensures SentBefore(t, f)
  {
    var i: nat :| i < |s.firsts| && FirstFrame(s, i) == f;
    assert FirstFrame(t, i) == f;
  }

  lemma OneMoreKeepsLedger(s: Queue, m: OrderedMessage, t: Queue)
    requires Ahead(s) && Ledger(s) && !s.stopped && m.serverSeq == s.next && m.retries == 0
    requires OneMore(s, m, t)
    ensures Ledger(t)
  {
    var last := |s.firsts|;
    assert FrameOf(m) in s.resends ==> SentBefore(s, FrameOf(m));
    assert FirstFrame(t, last) == FrameOf(m) && Pending(t, last) && PendingKey(t, s.next);
    forall i: nat | i < |t.firsts| ensures Accounted(t, i) {
      if i < last {
        assert Accounted(s, i);
        OneMoreAccounts(s, m, t, i);
      }
    }
    forall k | k in t.sent ensures PendingKey(t, k) {
      if k != s.next {
        assert PendingKey(s, k);
        OneMorePends(s, m, t, k);
      }
    }
    forall f | f in t.resends ensures SentBefore(t, f) {
      OneMoreRemembers(s, m, t, f);
    }
  }

  lemma TransmitOneKeepsLedger(s: Queue, m: OrderedMessage, now: int)
    requires Ahead(s) && Ledger(s) && !s.stopped && m.serverSeq == s.next && m.retries == 0
    ensures Ahead(Transmit(s, [m], now)) && Ledger(Transmit(s, [m], now))
  {
    TransmitOne(s, m, now);
    OneMoreKeepsLedger(s, m, Transmit(s, [m], now));
  }

  lemma {:induction false} TransmitKeepsLedger(s: Queue, ms: seq<OrderedMessage>, now: int)
    requires Ahead(s) && Ledger(s) && !s.stopped && Consecutive(ms, s.next)
    requires forall m | m in ms :: m.retries == 0
    ensures Ahead(Transmit(s, ms, now)) && Ledger(Transmit(s, ms, now))
  {
    if ms == [] {
      DrainedNothing(s, n => true, now);
    } else {
      var init, last := ms[..|ms| - 1], ms[|ms| - 1];
      assert ms == init + [last] && last in ms;
      TransmitKeepsLedger(s, init, now);
      LastKeepsLedger(s, init, last, now);
    }
  }

  lemma LastKeepsLedger(s: Queue, init: seq<OrderedMessage>, last: OrderedMessage, now: int)
    requires Ahead(Transmit(s, init, now)) && Ledger(Transmit(s, init, now)) && !s.stopped
    requires last.serverSeq == s.next + |init| && last.retries == 0
    ensures Ahead(Transmit(s, init + [last], now)) && Ledger(Transmit(s, init + [last], now))
  {
    TransmitConcat(s, init, [last], now);
    TransmitOneKeepsLedger(Transmit(s, init, now), last, now);
  }

  /** `t` forgets sent messages that are acknowledged or exhausted, or stops; the wire is untouched. */
  ghost predicate Forgets(s: Queue, t: Queue) {
    && t.firsts == s.firsts && t.resends == s.resends && t.lastAcked >= s.lastAcked
    && (forall k | k in t.sent :: k in s.sent && t.sent[k] == s.sent[k])
    && (forall k | k in s.sent && k !in t.sent :: k <= t.lastAcked || s.sent[k].retries >= MAX_RETRIES || t.stopped)
    && (forall m | m in t.waiting :: m.retries == 0)
    && (s.stopped ==> t.stopped)
    && (t.stopped ==> t.sent == map[] && t.waiting == multiset{})
  }

  lemma ForgetsAccounts(s: Queue, t: Queue, i: nat)
    requires Forgets(s, t) && i < |s.firsts| && Accounted(s, i)
    ensures Accounted(t, i)
    ensures FirstFrame(t, i) == FirstFrame(s, i)
    ensures Pending(s, i) && FirstFrame(s, i).serverSeq in t.sent ==> Pending(t, i)
  {
  }

  lemma ForgetsKeepsLedger(s: Queue, t: Queue)
    requires Ledger(s) && Forgets(s, t)
    ensures Ledger(t)
  {
    forall i: nat | i < |t.firsts| ensures Accounted(t, i) {
      ForgetsAccounts(s, t, i);
    }
    forall k | k in t.sent ensures PendingKey(t, k) {
      assert PendingKey(s, k);
      var i: nat :| i < |s.firsts| && FirstFrame(s, i).serverSeq == k && Pending(s, i);
      ForgetsAccounts(s, t, i);
    }
    forall f | f in t.resends ensures SentBefore(t, f) {
      assert SentBefore(s, f);
      var i: nat :| i < |s.firsts| && FirstFrame(s, i) == f;
      assert FirstFrame(t, i) == f;
    }
  }

  lemma PendingIndex(s: Queue, k: nat) returns (i: nat)
    requires Ledger(s) && k in s.sent
    ensures i < |s.firsts| && FirstFrame(s, i) == Frame(k, s.sent[k].data) && Pending(s, i)
  {
    assert PendingKey(s, k);
    i :| i < |s.firsts| && FirstFrame(s, i).serverSeq == k && Pending(s, i);
  }

  /**
   A retry round resends the frame of message `i` once if it resends number k, the number of
   `i`, and else not at all.
   */
  lemma RetryCounts(s: Queue, ks: set<nat>, i: nat)
    requires InOrder(s) && Ledger(s) && i < |s.firsts| && ks <= s.sent.Keys
    ensures var f := FirstFrame(s, i);
            multiset(FramesOf(s.sent, ks))[f] == if f.serverSeq in ks then 1 else 0
    ensures FirstFrame(s, i).serverSeq in s.sent ==> Pending(s, i)
  {
    var f := FirstFrame(s, i);
    if f.serverSeq in s.sent {
      var j := PendingIndex(s, f.serverSeq);
      assert j == i;
    }
    assert multiset(FramesOf(s.sent, ks))[f] == if f in FramesOf(s.sent, ks) then 1 else 0;
  }

  lemma RetryAccounts(s: Queue, ks: set<nat>, now: int, i: nat)
    requires InOrder(s) && Ledger(s) && i < |s.firsts| && ks <= s.sent.Keys
    requires forall k | k in ks :: s.sent[k].retries < MAX_RETRIES
    ensures var t := ResendAll(s, ks, now);
            FirstFrame(t, i) == FirstFrame(s, i) && Accounted(t, i) && (Pending(s, i) ==> Pending(t, i))
  {
    assert Accounted(s, i);
    RetryCounts(s, ks, i);
  }

  lemma RetryRemembers(s: Queue, ks: set<nat>, now: int, f: Frame)
    requires Ledger(s) && ks <= s.sent.Keys && f in ResendAll(s, ks, now).resends
    ensures SentBefore(ResendAll(s, ks, now), f)
  {
    var t := ResendAll(s, ks, now);
    if f in s.resends {
      assert SentBefore(s, f);
      var i: nat :| i < |s.firsts| && FirstFrame(s, i) == f;
      assert FirstFrame(t, i) == f;
    } else {
      assert f in FramesOf(s.sent, ks);
      var i := PendingIndex(s, f.serverSeq);
      assert FirstFrame(t, i) == f;
    }
  }

  lemma RetryKeepsLedger(s: Queue, ks: set<nat>, now: int)
    requires InOrder(s) && Ledger(s) && ks <= s.sent.Keys
    requires forall k | k in ks :: s.sent[k].retries < MAX_RETRIES
    ensures Ledger(ResendAll(s, ks, now))
  {
    var t := ResendAll(s, ks, now);
    forall i: nat | i < |t.firsts| ensures Accounted(t, i) {
      RetryAccounts(s, ks, now, i);
    }
    forall k | k in t.sent ensures PendingKey(t, k) {
      var i := PendingIndex(s, k);
      RetryAccounts(s, ks, now, i);
    }
    forall f | f in t.resends ensures SentBefore(t, f) {
      RetryRemembers(s, ks, now, f);
    }
  }

  lemma SendKeepsLedger(s: Queue, msg: OrderedMessage, now: int, link: nat -> bool, burst: seq<OrderedMessage>)
    requires Ahead(s) && Ledger(s) && !s.stopped && msg.serverSeq == s.next && msg.retries == 0
    requires IsBurst(s.waiting, s.next + 1, link, burst)
    ensures InOrder(Transmit(s, [msg] + burst, now))
    ensures Ledger(Transmit(s, [msg] + burst, now).(waiting := s.waiting - multiset(burst)))
  {
    var ms := [msg] + burst;
    forall m | m in burst ensures m in s.waiting {
      assert m in multiset(burst);
    }
    TransmitKeepsLedger(s, ms, now);
    ForgetsKeepsLedger(Transmit(s, ms, now), Transmit(s, ms, now).(waiting := s.waiting - multiset(burst)));
  }

  lemma EnqueueKeepsLedger(s: Queue, n: nat, data: Bytes, now: int, link: nat -> bool, burst: seq<OrderedMessage>)
    requires InOrder(s) && Ledger(s) && EnqueueEnabled(s, n, link, burst)
    requires EnqueueOutcome(s, n, link) == Accepted && n == s.next ==> Ahead(s)
    ensures InOrder(AfterEnqueue(s, n, data, now, link, burst))
    ensures Ledger(AfterEnqueue(s, n, data, now, link, burst))
  {
    if EnqueueOutcome(s, n, link) == Accepted && n == s.next {
      SendKeepsLedger(s, NewMessage(n, data, now), now, link, burst);
    } else {
      ParkKeepsLedger(s, n, data, now, link, burst);
    }
  }

  lemma ParkKeepsLedger(s: Queue, n: nat, data: Bytes, now: int, link: nat -> bool, burst: seq<OrderedMessage>)
    requires Ledger(s) && (EnqueueOutcome(s, n, link) == Accepted ==> n != s.next)
    ensures Ledger(AfterEnqueue(s, n, data, now, link, burst))
    ensures AfterEnqueue(s, n, data, now, link, burst).firsts == s.firsts
  {
    var t := AfterEnqueue(s, n, data, now, link, burst);
    assert Forgets(s, t);
    ForgetsKeepsLedger(s, t);
  }

  lemma StepForgets(s: Queue, step: Step)
    requires Ledger(s) && !step.Enqueue? && !step.Retry?
    ensures Forgets(s, Apply(s, step))
  {
    match step
    case Ack(a) => assert Forgets(s, AfterAck(s, a));
    case Resync(a) => ResyncForgets(s, a);
    case Cleanup(now) => assert Forgets(s, AfterCleanup(s, now));
    case Stop => assert Forgets(s, AfterStop(s));
  }

  lemma ResyncForgets(s: Queue, a: nat)
    requires Ledger(s)
    ensures Forgets(s, AfterResync(s, a))
  {
  }

  /** The step sends its message at once. */
  ghost predicate SendsAtOnce(s: Queue, step: Step) {
    step.Enqueue? && EnqueueOutcome(s, step.n, step.link) == Accepted && step.n == s.next
  }

  /** One step keeps the ledger, provided that what it transmits is new. */
  lemma LedgerStep(s: Queue, step: Step)
    requires InOrder(s) && Ledger(s) && Enabled(s, step) && (SendsAtOnce(s, step) ==> Ahead(s))
    ensures InOrder(Apply(s, step)) && Ledger(Apply(s, step))
  {
    match step
    case Enqueue(n, data, now, link, burst) => EnqueueKeepsLedger(s, n, data, now, link, burst);
    case Retry(now, link) => RetryKeepsLedger(s, Resent(s, now, link), now);
    case _ =>
      StepForgets(s, step);
      ForgetsKeepsLedger(s, Apply(s, step));
  }

  /** Conservation: in every state of every run of a new queue, the ledger balances. */
  lemma {:induction false} Conservation(states: seq<Queue>, steps: seq<Step>, cap: int, i: nat)
    requires IsRun(states, steps) && states[0] == Init(cap) && i < |states|
    ensures Stream(states[i]) && Ledger(states[i])
  {
    if i > 0 {
      Conservation(states, steps, cap, i - 1);
      assert StepAt(states, steps, i - 1);
      StreamStep(states[i - 1], steps[i - 1]);
      LedgerStep(states[i - 1], steps[i - 1]);
    }
  }

  // ---------- Once removed, never resent ----------

  lemma GoneStep(s: Queue, step: Step, f: Frame)
    requires Enabled(s, step) && f.serverSeq < s.next && f.serverSeq !in s.sent
    ensures f.serverSeq !in Apply(s, step).sent
    ensures Apply(s, step).resends[f] == s.resends[f]
  {
    if step.Retry? {
      assert f !in FramesOf(s.sent, Resent(s, step.now, step.link));
    }
  }

  /** A number that has been transmitted or skipped and is no longer kept is never put on the wire again. */
  lemma {:induction false} GoneForGood(states: seq<Queue>, steps: seq<Step>, i: nat, j: nat, f: Frame)
    requires IsRun(states, steps) && i <= j < |states|
    requires f.serverSeq < states[i].next && f.serverSeq !in states[i].sent
    ensures f.serverSeq !in states[j].sent && f.serverSeq < states[j].next
    ensures states[j].resends[f] == states[i].resends[f]
    decreases j
  {
    if i < j {
      GoneForGood(states, steps, i, j - 1, f);
      assert StepAt(states, steps, j - 1);
      GoneStep(states[j - 1], steps[j - 1], f);
      GrowsStep(states[j - 1], steps[j - 1]);
    }
  }

  /** A frame that was put on the wire, for the first time or again. */
  ghost predicate OnWire(s: Queue, f: Frame) {
    f in s.resends || SentBefore(s, f)
  }

  /** On the wire of one queue a number has one payload, and is seen at most 1 + MAX_RETRIES times. */
  lemma OnePayloadPerNumber(s: Queue, f: Frame, g: Frame)
    requires InOrder(s) && Ledger(s) && OnWire(s, f) && OnWire(s, g) && f.serverSeq == g.serverSeq
    ensures f == g && s.resends[f] <= MAX_RETRIES
  {
    assert SentBefore(s, f) && SentBefore(s, g);
    var i: nat :| i < |s.firsts| && FirstFrame(s, i) == f;
    var j: nat :| j < |s.firsts| && FirstFrame(s, j) == g;
    assert i == j && Accounted(s, i);
  }
}
