/** How long a queue keeps an unacknowledged message. */
module QueueTiming {
  import opened Common
  import opened QueueSpec
  import opened QueueHistory

  /** Every retry of a pending message came more than a retry timeout after the previous attempt. */
  ghost predicate AgedAt(s: Queue, p: nat)
    requires p < |s.firsts|
  {
    var first := s.firsts[p].msg;
    first.serverSeq in s.sent ==>
      var m := s.sent[first.serverSeq];
      m.timestamp >= first.timestamp + m.retries * (RETRY_TIMEOUT + 1)
  }

  ghost predicate Aged(s: Queue) {
    forall p: nat | p < |s.firsts| :: AgedAt(s, p)
  }

  /** Where the entry of the `p`th transmission comes from when `ms` is transmitted. */
  lemma TransmitEntries(s: Queue, ms: seq<OrderedMessage>, now: int, p: nat)
    requires Ahead(s) && Consecutive(ms, s.next) && p < |s.firsts| + |ms|
    ensures var t := Transmit(s, ms, now);
            var k := t.firsts[p].msg.serverSeq;
            if p < |s.firsts|
            then t.firsts[p] == s.firsts[p]
                 && (k in t.sent <==> k in s.sent) && (k in s.sent ==> t.sent[k] == s.sent[k])
            else t.firsts[p] == Transmission(ms[p - |s.firsts|], now) && k in t.sent
                 && t.sent[k] == ms[p - |s.firsts|].(sent := true)
  {
  }

  lemma TransmitKeepsAged(s: Queue, ms: seq<OrderedMessage>, now: int)
    requires Ahead(s) && Aged(s) && Consecutive(ms, s.next)
    requires forall m | m in ms :: m.retries == 0
    ensures Aged(Transmit(s, ms, now))
  {
    var t := Transmit(s, ms, now);
    forall p: nat | p < |t.firsts| ensures AgedAt(t, p) {
      TransmitEntries(s, ms, now, p);
      assert p < |s.firsts| ==> AgedAt(s, p);
    }
  }

  /** Outside the transmission of new messages an entry stays as it is, disappears, or is retried when due. */
  ghost predicate EntriesAge(s: Queue, t: Queue) {
    && t.firsts == s.firsts
    && forall k | k in t.sent :: k in s.sent &&
         (t.sent[k] == s.sent[k] || exists now :: Due(s.sent[k], now) && t.sent[k] == Retried(s.sent[k], now))
  }

  lemma OtherStepsAge(s: Queue, step: Step)
    requires !step.Enqueue?
    ensures EntriesAge(s, Apply(s, step))
  {
  }

  lemma EntriesAgeKeepsAged(s: Queue, t: Queue)
    requires Aged(s) && EntriesAge(s, t)
    ensures Aged(t)
  {
    forall p: nat | p < |t.firsts| ensures AgedAt(t, p) {
      assert AgedAt(s, p);
    }
  }

  lemma EnqueueKeepsAged(s: Queue, step: Step)
    requires Ledger(s) && Aged(s) && Enabled(s, step) && step.Enqueue? && (SendsAtOnce(s, step) ==> Ahead(s))
    ensures Aged(Apply(s, step))
  {
    if SendsAtOnce(s, step) {
      var ms := [NewMessage(step.n, step.data, step.now)] + step.burst;
      BurstIsNew(s, step);
      TransmitKeepsAged(s, ms, step.now);
      EntriesAgeKeepsAged(Transmit(s, ms, step.now), Apply(s, step));
    } else {
      EntriesAgeKeepsAged(s, Apply(s, step));
    }
  }

  lemma AgedStep(s: Queue, step: Step)
    requires Ledger(s) && Aged(s) && Enabled(s, step) && (SendsAtOnce(s, step) ==> Ahead(s))
    ensures Aged(Apply(s, step))
  {
    if step.Enqueue? {
      EnqueueKeepsAged(s, step);
    } else {
      OtherStepsAge(s, step);
      EntriesAgeKeepsAged(s, Apply(s, step));
    }
  }

  lemma BurstIsNew(s: Queue, step: Step)
    requires Ledger(s) && Enabled(s, step)
    requires SendsAtOnce(s, step)
    ensures forall m | m in step.burst :: m in s.waiting && m.retries == 0
    ensures Consecutive([NewMessage(step.n, step.data, step.now)] + step.burst, s.next)
  {
    forall m | m in step.burst ensures m in s.waiting {
      assert m in multiset(step.burst);
    }
  }

  lemma {:induction false} AgedRun(states: seq<Queue>, steps: seq<Step>, cap: int, i: nat)
    requires IsRun(states, steps) && states[0] == Init(cap) && i < |states|
    ensures Aged(states[i])
  {
    if i > 0 {
      AgedRun(states, steps, cap, i - 1);
      Conservation(states, steps, cap, i - 1);
      assert StepAt(states, steps, i - 1);
      AgedStep(states[i - 1], steps[i - 1]);
    }
  }

  /** More than 75 seconds before `now`, the message transmitted under number `k` was enqueued. */
  ghost predicate WaitedEnough(s: Queue, k: nat, now: int) {
    exists p :: TransmittedAt(s, p, k) && now - s.firsts[p].msg.timestamp > 75 * SECOND
  }

  lemma GivenUpLate(s: Queue, now: int, k: nat)
    requires Ledger(s) && Aged(s) && k in s.sent && GivenUp(s.sent[k], now)
    ensures WaitedEnough(s, k, now)
  {
    var p := PendingIndex(s, k);
    assert AgedAt(s, p) && Accounted(s, p) && TransmittedAt(s, p, k);
  }

  /** A cleanup gives up an unacknowledged message only when more than 75 seconds have passed since it was enqueued. */
  lemma NeverGivenUpEarly(states: seq<Queue>, steps: seq<Step>, cap: int, i: nat, k: nat)
    requires IsRun(states, steps) && states[0] == Init(cap) && i < |steps|
    requires steps[i].Cleanup? && k in states[i].sent && k !in states[i + 1].sent
    ensures WaitedEnough(states[i], k, steps[i].now)
  {
    AgedRun(states, steps, cap, i);
    Conservation(states, steps, cap, i);
    assert StepAt(states, steps, i);
    GivenUpLate(states[i], steps[i].now, k);
  }

  // ---------- Prompt timers ----------

  /**
   A queue with a clock and the times of its latest cleanup and latest retry round; `lag`
   is how much later than by its own ticks it may be with messages it was handed.
   */
  datatype Timed = Timed(queue: Queue, clock: int, cleaned: int, retried: int, lag: int)

  const TICK := 10 * SECOND

  /** Step `step` taken at time `at`, no tick being overdue; a retry round always gets through. */
  ghost predicate PromptEnabled(s: Timed, step: Step, at: int) {
    && Enabled(s.queue, step)
    && s.clock <= at <= s.cleaned + TICK && at <= s.retried + TICK
    && (step.Enqueue? || step.Cleanup? || step.Retry? ==> step.now == at)
    && (step.Retry? ==> Always(step.link))
  }

  ghost function PromptApply(s: Timed, step: Step, at: int): Timed {
    s.(queue := Apply(s.queue, step),
       clock := at,
       cleaned := if step.Cleanup? then at else s.cleaned,
       retried := if step.Retry? then at else s.retried)
  }

  ghost predicate PromptStepAt(states: seq<Timed>, steps: seq<Step>, times: seq<int>, i: nat)
    requires |states| == |steps| + 1 == |times| + 1 && i < |steps|
  {
    PromptEnabled(states[i], steps[i], times[i]) && states[i + 1] == PromptApply(states[i], steps[i], times[i])
  }

  ghost predicate IsPromptRun(states: seq<Timed>, steps: seq<Step>, times: seq<int>) {
    && |states| == |steps| + 1 == |times| + 1
    && forall i: nat | i < |steps| :: PromptStepAt(states, steps, times, i)
  }

  /** The schedule of message `p`, but for the lag: at most 25 seconds to each retry, and 40 more after the last. */
  ghost predicate OnSchedule(s: Timed, p: nat)
    requires p < |s.queue.firsts|
  {
    var sent, start := s.queue.sent, s.queue.firsts[p].at + s.lag;
    var k := s.queue.firsts[p].msg.serverSeq;
    k in sent ==>
      var m := sent[k];
      && m.retries <= MAX_RETRIES
      && m.timestamp <= start + m.retries * 25 * SECOND
      && (m.retries < MAX_RETRIES ==> s.retried <= start + m.retries * 25 * SECOND + RETRY_TIMEOUT)
      && (m.retries == MAX_RETRIES ==> s.cleaned <= start + 75 * SECOND + MESSAGE_TIMEOUT)
  }

  ghost predicate Punctual(s: Timed) {
    && s.cleaned <= s.clock && s.retried <= s.clock && s.lag >= 0
    && (forall m | m in s.queue.waiting :: m.timestamp <= s.clock)
    && (forall p: nat | p < |s.queue.firsts| :: OnSchedule(s, p))
  }

  /** No tick is overdue. */
  ghost predicate OnTime(s: Timed) {
    s.clock <= s.cleaned + TICK && s.clock <= s.retried + TICK
  }

  lemma SendOnSchedule(s: Timed, ms: seq<OrderedMessage>, at: int, p: nat)
    requires Ahead(s.queue) && Punctual(s) && Consecutive(ms, s.queue.next) && s.clock <= at
    requires forall m | m in ms :: m.retries == 0 && m.timestamp <= at
    requires p < |s.queue.firsts| + |ms|
    ensures OnSchedule(s.(queue := Transmit(s.queue, ms, at), clock := at), p)
  {
    TransmitEntries(s.queue, ms, at, p);
    assert p < |s.queue.firsts| ==> OnSchedule(s, p);
  }

  lemma EnqueueStaysPunctual(s: Timed, step: Step, at: int)
    requires Ledger(s.queue) && Punctual(s) && PromptEnabled(s, step, at) && step.Enqueue?
    requires SendsAtOnce(s.queue, step) ==> Ahead(s.queue)
    ensures Punctual(PromptApply(s, step, at))
  {
    var t := PromptApply(s, step, at);
    var q := s.queue;
    if SendsAtOnce(q, step) {
      var ms := [NewMessage(step.n, step.data, step.now)] + step.burst;
      BurstIsNew(q, step);
      var u := s.(queue := Transmit(q, ms, at), clock := at);
      forall p: nat | p < |t.queue.firsts| ensures OnSchedule(t, p) {
        SendOnSchedule(s, ms, at, p);
        assert OnSchedule(u, p);
      }
    } else {
      forall p: nat | p < |t.queue.firsts| ensures OnSchedule(t, p) {
        assert OnSchedule(s, p);
      }
    }
  }

  lemma OtherStepsOnSchedule(s: Timed, step: Step, at: int, p: nat)
    requires Punctual(s) && PromptEnabled(s, step, at) && !step.Enqueue? && p < |s.queue.firsts|
    ensures OnSchedule(PromptApply(s, step, at), p)
  {
    assert OnSchedule(s, p);
  }

  lemma PunctualStep(s: Timed, step: Step, at: int)
    requires Ledger(s.queue) && Punctual(s) && PromptEnabled(s, step, at)
    requires SendsAtOnce(s.queue, step) ==> Ahead(s.queue)
    ensures Punctual(PromptApply(s, step, at)) && OnTime(PromptApply(s, step, at))
  {
    if step.Enqueue? {
      EnqueueStaysPunctual(s, step, at);
    } else {
      forall p: nat | p < |s.queue.firsts| ensures OnSchedule(PromptApply(s, step, at), p) {
        OtherStepsOnSchedule(s, step, at, p);
      }
    }
  }

  /** A new queue, whose ticker starts with it. */
  ghost function Started(cap: int, now: int): Timed {
    Timed(Init(cap), now, now, now, 0)
  }

  lemma {:induction false} PromptRun(states: seq<Timed>, steps: seq<Step>, times: seq<int>, cap: int, i: nat)
    requires IsPromptRun(states, steps, times) && i < |states|
    requires states[0] == Started(cap, states[0].clock)
    ensures Stream(states[i].queue) && Ledger(states[i].queue) && Punctual(states[i]) && OnTime(states[i])
    ensures states[i].lag == 0
  {
    if i > 0 {
      PromptRun(states, steps, times, cap, i - 1);
      assert PromptStepAt(states, steps, times, i - 1);
      var s, step := states[i - 1], steps[i - 1];
      StreamStep(s.queue, step);
      LedgerStep(s.queue, step);
      PunctualStep(s, step, times[i - 1]);
    }
  }

  /** What is on schedule, and is still kept, is not older than 115 seconds and the lag. */
  lemma KeptOnTime(s: Timed, p: nat)
    requires Punctual(s) && OnTime(s) && p < |s.queue.firsts| && s.queue.firsts[p].msg.serverSeq in s.queue.sent
    ensures s.clock <= s.queue.firsts[p].at + 115 * SECOND + s.lag
  {
    assert OnSchedule(s, p);
  }

  /**
   With ticks at most ten seconds apart and retries that get through, nothing is kept for
   more than 115 seconds after its first transmission.
   */
  lemma GivenUpInTime(states: seq<Timed>, steps: seq<Step>, times: seq<int>, cap: int, i: nat, p: nat)
    requires IsPromptRun(states, steps, times) && i < |states| && p < |states[i].queue.firsts|
    requires states[0] == Started(cap, states[0].clock)
    requires states[i].clock > states[i].queue.firsts[p].at + 115 * SECOND
    ensures states[i].queue.firsts[p].msg.serverSeq !in states[i].queue.sent
  {
    PromptRun(states, steps, times, cap, i);
    if states[i].queue.firsts[p].msg.serverSeq in states[i].queue.sent {
      KeptOnTime(states[i], p);
    }
  }
}
