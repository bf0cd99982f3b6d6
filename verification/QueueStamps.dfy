/**
 Where the stamps of messages come from, and what they say about times: when a message was
 enqueued, how far apart its retransmissions are, and how long it stays parked.
 */
module QueueStamps {
  import opened Common
  import opened QueueSpec
  import opened QueueHistory
  import opened QueueTiming

  // ---------- Messages come from enqueues ----------

  /** `m` is the message that step `j` offered, untouched. */
  ghost predicate OfferedIn(steps: seq<Step>, j: int, m: OrderedMessage) {
    0 <= j < |steps| && steps[j].Enqueue? && m == OrderedMessage(steps[j].n, steps[j].data, steps[j].now, 0, false)
  }

  ghost predicate OfferedBefore(steps: seq<Step>, i: nat, m: OrderedMessage) {
    exists j :: j < i && OfferedIn(steps, j, m)
  }

  /**
   What a step parks or transmits was parked before, or is what it offers; and it is
   transmitted at the time of the step.
   */
  lemma NewMessagesAreOffered(s: Queue, step: Step, m: OrderedMessage)
    requires Enabled(s, step)
    ensures m in Apply(s, step).waiting ==> m in s.waiting || OfferedIn([step], 0, m)
    ensures forall p: nat | |s.firsts| <= p < |Apply(s, step).firsts| ::
              var f := Apply(s, step).firsts[p];
              step.Enqueue? && f.at == step.now && (f.msg in s.waiting || OfferedIn([step], 0, f.msg))
  {
    if SendsAtOnce(s, step) {
      BurstWasWaiting(s, step);
    }
  }

  lemma BurstWasWaiting(s: Queue, step: Step)
    requires Enabled(s, step) && SendsAtOnce(s, step)
    ensures forall p: nat | |s.firsts| < p < |Apply(s, step).firsts| :: Apply(s, step).firsts[p].msg in s.waiting
  {
    forall p: nat | |s.firsts| < p < |Apply(s, step).firsts| ensures Apply(s, step).firsts[p].msg in s.waiting {
      assert step.burst[p - |s.firsts| - 1] in multiset(step.burst);
    }
  }

  /**
   Every message that is parked, and every message as it was first transmitted, is as some
   step of the run offered it.
   */
  lemma {:induction false} MessagesAreOffered(states: seq<Queue>, steps: seq<Step>, cap: int, i: nat)
    requires IsRun(states, steps) && states[0] == Init(cap) && i < |states|
    ensures forall m | m in states[i].waiting :: OfferedBefore(steps, i, m)
    ensures forall p: nat | p < |states[i].firsts| :: OfferedBefore(steps, i, states[i].firsts[p].msg)
  {
    if i > 0 {
      MessagesAreOffered(states, steps, cap, i - 1);
      assert StepAt(states, steps, i - 1);
      var s, step := states[i - 1], steps[i - 1];
      GrowsStep(s, step);
      forall m | m in states[i].waiting ensures OfferedBefore(steps, i, m) {
        NewMessagesAreOffered(s, step, m);
        OfferedStays(steps, i, s, m);
      }
      forall p: nat | p < |states[i].firsts| ensures OfferedBefore(steps, i, states[i].firsts[p].msg) {
        if p < |s.firsts| {
          assert states[i].firsts[p] == s.firsts[p];
          assert OfferedBefore(steps, i - 1, s.firsts[p].msg);
        } else {
          NewMessagesAreOffered(s, step, states[i].firsts[p].msg);
          OfferedStays(steps, i, s, states[i].firsts[p].msg);
        }
      }
    }
  }

  lemma OfferedStays(steps: seq<Step>, i: nat, s: Queue, m: OrderedMessage)
    requires 0 < i <= |steps| && forall w | w in s.waiting :: OfferedBefore(steps, i - 1, w)
    ensures m in s.waiting || OfferedIn([steps[i - 1]], 0, m) ==> OfferedBefore(steps, i, m)
  {
    if m in s.waiting {
      assert OfferedBefore(steps, i - 1, m);
    } else if OfferedIn([steps[i - 1]], 0, m) {
      assert OfferedIn(steps, i - 1, m);
    }
  }

  // ---------- Retransmissions ----------

  /** Step `i` puts number `k` on the wire again. */
  ghost predicate ResendsIn(states: seq<Queue>, steps: seq<Step>, i: nat, k: nat)
    requires i < |steps| < |states|
  {
    exists f: Frame :: f.serverSeq == k && states[i + 1].resends[f] > states[i].resends[f]
  }

  /** What a retransmission finds, and what it leaves: the entry, stamped with the time of the step. */
  lemma ResendStamps(s: Queue, step: Step, f: Frame)
    requires Enabled(s, step) && Apply(s, step).resends[f] > s.resends[f]
    ensures step.Retry? && f.serverSeq in s.sent && f.data == s.sent[f.serverSeq].data
    ensures step.now - s.sent[f.serverSeq].timestamp > 15 * SECOND && s.sent[f.serverSeq].retries < 3
    ensures var t := Apply(s, step);
            && f.serverSeq in t.sent && t.sent[f.serverSeq].timestamp == step.now
            && t.sent[f.serverSeq].retries == s.sent[f.serverSeq].retries + 1
  {
    if step.Retry? {
      assert f in FramesOf(s.sent, Resent(s, step.now, step.link));
    }
  }

  /** A number that the queue has passed is not restamped but to a later time. */
  lemma StampsRise(s: Queue, step: Step, k: nat)
    requires Enabled(s, step) && k < s.next && k in Apply(s, step).sent
    ensures k in s.sent && Apply(s, step).sent[k].timestamp >= s.sent[k].timestamp
  {
  }

  lemma {:induction false} StampsRiseRun(states: seq<Queue>, steps: seq<Step>, i: nat, j: nat, k: nat)
    requires IsRun(states, steps) && i <= j < |states| && k < states[i].next && k in states[j].sent
    ensures k in states[i].sent && states[j].sent[k].timestamp >= states[i].sent[k].timestamp
    decreases j
  {
    if i < j {
      GrowsRun(states, steps, i, j - 1);
      assert StepAt(states, steps, j - 1);
      StampsRise(states[j - 1], steps[j - 1], k);
      StampsRiseRun(states, steps, i, j - 1, k);
    }
  }

  /** Two retransmissions of one number are more than 15 seconds apart, by the times of their steps. */
  lemma RetriesAreSpaced(states: seq<Queue>, steps: seq<Step>, cap: int, i: nat, j: nat, k: nat)
    requires IsRun(states, steps) && states[0] == Init(cap) && i < j < |steps|
    requires ResendsIn(states, steps, i, k) && ResendsIn(states, steps, j, k)
    ensures steps[i].Retry? && steps[j].Retry? && steps[j].now - steps[i].now > 15 * SECOND
  {
    var f: Frame :| f.serverSeq == k && states[i + 1].resends[f] > states[i].resends[f];
    var g: Frame :| g.serverSeq == k && states[j + 1].resends[g] > states[j].resends[g];
    assert StepAt(states, steps, i) && StepAt(states, steps, j);
    ResendStamps(states[i], steps[i], f);
    ResendStamps(states[j], steps[j], g);
    KeptIsPassed(states, steps, cap, i + 1, k);
    StampsRiseRun(states, steps, i + 1, j, k);
  }

  lemma KeptIsPassed(states: seq<Queue>, steps: seq<Step>, cap: int, i: nat, k: nat)
    requires IsRun(states, steps) && states[0] == Init(cap) && i < |states| && k in states[i].sent
    ensures k < states[i].next
  {
    Conservation(states, steps, cap, i);
    var p := PendingIndex(states[i], k);
  }

  /** And the first one comes more than 15 seconds after the number was enqueued. */
  lemma RetryAfterEnqueue(states: seq<Queue>, steps: seq<Step>, cap: int, i: nat, k: nat)
    requires IsRun(states, steps) && states[0] == Init(cap) && i < |steps| && ResendsIn(states, steps, i, k)
    ensures steps[i].Retry? && exists j :: EnqueuedLongBefore(steps, j, i, k, steps[i].now)
  {
    var f: Frame :| f.serverSeq == k && states[i + 1].resends[f] > states[i].resends[f];
    assert StepAt(states, steps, i);
    ResendStamps(states[i], steps[i], f);
    EntryIsOld(states, steps, cap, i, k, steps[i].now);
  }

  /** Step `j` enqueued number `k` before step `i`, and more than 15 seconds before `now`. */
  ghost predicate EnqueuedLongBefore(steps: seq<Step>, j: int, i: nat, k: nat, now: int) {
    0 <= j < i < |steps| && steps[j].Enqueue? && steps[j].n == k && now - steps[j].now > 15 * SECOND
  }

  lemma EntryIsOld(states: seq<Queue>, steps: seq<Step>, cap: int, i: nat, k: nat, now: int)
    requires IsRun(states, steps) && states[0] == Init(cap) && i < |steps| && k in states[i].sent
    requires now - states[i].sent[k].timestamp > 15 * SECOND
    ensures exists j :: EnqueuedLongBefore(steps, j, i, k, now)
  {
    Conservation(states, steps, cap, i);
    var p := PendingIndex(states[i], k);
    StampedAfterEnqueue(states, steps, cap, i, p);
    assert OfferedBefore(steps, i, states[i].firsts[p].msg) by {
      MessagesAreOffered(states, steps, cap, i);
    }
    var j :| j < i && OfferedIn(steps, j, states[i].firsts[p].msg);
    assert EnqueuedLongBefore(steps, j, i, k, now);
  }

  lemma StampedAfterEnqueue(states: seq<Queue>, steps: seq<Step>, cap: int, i: nat, p: nat)
    requires IsRun(states, steps) && states[0] == Init(cap) && i < |states| && p < |states[i].firsts|
    ensures var first := states[i].firsts[p].msg;
            first.serverSeq in states[i].sent ==> states[i].sent[first.serverSeq].timestamp >= first.timestamp
  {
    AgedRun(states, steps, cap, i);
    assert AgedAt(states[i], p);
  }

  // ---------- What is kept for retransmission ----------

  /**
   An entry is marked as sent and filed under its number; before its first retry it carries
   the stamp of its enqueue.
   */
  ghost predicate EntryAt(s: Queue, p: nat)
    requires p < |s.firsts|
  {
    var first := s.firsts[p].msg;
    first.serverSeq in s.sent ==>
      var m := s.sent[first.serverSeq];
      && m.sent && m.serverSeq == first.serverSeq && m.data == first.data
      && (m.retries == 0 ==> m.timestamp == first.timestamp)
  }

  ghost predicate Entries(s: Queue) {
    forall p: nat | p < |s.firsts| :: EntryAt(s, p)
  }

  lemma TransmitKeepsEntries(s: Queue, ms: seq<OrderedMessage>, now: int)
    requires Ahead(s) && Entries(s) && Consecutive(ms, s.next)
    ensures Entries(Transmit(s, ms, now))
  {
    var t := Transmit(s, ms, now);
    forall p: nat | p < |t.firsts| ensures EntryAt(t, p) {
      TransmitEntries(s, ms, now, p);
      assert p < |s.firsts| ==> EntryAt(s, p);
    }
  }

  lemma EntriesStep(s: Queue, step: Step)
    requires Stream(s) && Ledger(s) && Entries(s) && Enabled(s, step)
    ensures Entries(Apply(s, step))
  {
    if SendsAtOnce(s, step) {
      var ms := [NewMessage(step.n, step.data, step.now)] + step.burst;
      BurstIsNew(s, step);
      TransmitKeepsEntries(s, ms, step.now);
      EntriesLookAt(Transmit(s, ms, step.now), Apply(s, step));
    } else {
      if !step.Enqueue? {
        OtherStepsAge(s, step);
      }
      EntriesLookAt(s, Apply(s, step));
    }
  }

  lemma EntriesLookAt(s: Queue, t: Queue)
    requires Entries(s) && EntriesAge(s, t)
    ensures Entries(t)
  {
    forall p: nat | p < |t.firsts| ensures EntryAt(t, p) {
      assert EntryAt(s, p);
    }
  }

  lemma {:induction false} EntriesRun(states: seq<Queue>, steps: seq<Step>, cap: int, i: nat)
    requires IsRun(states, steps) && states[0] == Init(cap) && i < |states|
    ensures Entries(states[i])
  {
    if i > 0 {
      EntriesRun(states, steps, cap, i - 1);
      Conservation(states, steps, cap, i - 1);
      assert StepAt(states, steps, i - 1);
      EntriesStep(states[i - 1], steps[i - 1]);
    }
  }

  // ---------- Expiry ----------

  /**
   A cleanup keeps exactly the parked messages of the last 30 seconds, and the sent ones with
   a retry or part of their last wait left.
   */
  lemma CleanupExact(s: Queue, now: int)
    ensures forall m :: AfterCleanup(s, now).waiting[m] == if now - m.timestamp <= 30 * SECOND then s.waiting[m] else 0
    ensures forall k :: k in AfterCleanup(s, now).sent <==>
                          k in s.sent && (s.sent[k].retries < 3 || now - s.sent[k].timestamp <= 30 * SECOND)
    ensures forall k | k in AfterCleanup(s, now).sent :: AfterCleanup(s, now).sent[k] == s.sent[k]
  {
  }

  /** A parked message is dropped by a cleanup exactly if the step that offered it lies more than 30 seconds back. */
  lemma ParkedExpiresIff(states: seq<Queue>, steps: seq<Step>, cap: int, i: nat, m: OrderedMessage)
    requires IsRun(states, steps) && states[0] == Init(cap) && i < |steps| && steps[i].Cleanup?
    requires m in states[i].waiting
    ensures exists j: nat :: j < i && OfferedIn(steps, j, m)
                             && (m !in states[i + 1].waiting <==> steps[i].now - steps[j].now > 30 * SECOND)
  {
    MessagesAreOffered(states, steps, cap, i);
    assert OfferedBefore(steps, i, m);
    var j :| j < i && OfferedIn(steps, j, m);
    assert StepAt(states, steps, i);
    CleanupExact(states[i], steps[i].now);
  }

  /** The latest cleanup is not long past for anything parked. */
  ghost predicate ParkedFresh(s: Timed) {
    && s.cleaned <= s.clock
    && forall m | m in s.queue.waiting :: m.timestamp <= s.clock && s.cleaned <= m.timestamp + 30 * SECOND
  }

  lemma ParkedFreshStep(s: Timed, step: Step, at: int)
    requires ParkedFresh(s) && PromptEnabled(s, step, at)
    ensures ParkedFresh(PromptApply(s, step, at))
  {
    var t := PromptApply(s, step, at);
    forall m | m in t.queue.waiting ensures m.timestamp <= t.clock && t.cleaned <= m.timestamp + 30 * SECOND {
      NewMessagesAreOffered(s.queue, step, m);
      if step.Cleanup? {
        CleanupExact(s.queue, at);
      }
    }
  }

  lemma {:induction false} ParkedFreshRun(states: seq<Timed>, steps: seq<Step>, times: seq<int>, cap: int, i: nat)
    requires IsPromptRun(states, steps, times) && states[0] == Started(cap, states[0].clock) && i < |states|
    ensures ParkedFresh(states[i])
  {
    if i > 0 {
      ParkedFreshRun(states, steps, times, cap, i - 1);
      assert PromptStepAt(states, steps, times, i - 1);
      ParkedFreshStep(states[i - 1], steps[i - 1], times[i - 1]);
    }
  }

  /** With ticks at most ten seconds apart nothing stays parked for more than 40 seconds. */
  lemma ParkedAtMost(states: seq<Timed>, steps: seq<Step>, times: seq<int>, cap: int, i: nat, m: OrderedMessage)
    requires IsPromptRun(states, steps, times) && states[0] == Started(cap, states[0].clock) && i < |states|
    requires m in states[i].queue.waiting
    ensures states[i].clock <= m.timestamp + 40 * SECOND
  {
    ParkedFreshRun(states, steps, times, cap, i);
    PromptRun(states, steps, times, cap, i);
  }
}
