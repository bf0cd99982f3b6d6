/** When the queue moves on, and when a lost number holds it up. */
module QueueProgress {
  import opened Common
  import opened QueueSpec
  import opened QueueHistory
  import opened Reordering

  /** The queue cannot pass `k` unless `k` is enqueued: it has stopped there, or will, because `k` is not parked. */
  ghost predicate StuckAt(s: Queue, k: nat) {
    s.next == k || (s.next < k && !Parked(s.waiting, k))
  }

  /** A step that could get the queue past `k`. */
  ghost predicate Frees(step: Step, k: nat) {
    step.Resync? && step.a >= k
  }

  ghost predicate Delivers(step: Step, k: nat) {
    step.Enqueue? && step.n == k
  }

  lemma BurstWasParked(w: multiset<OrderedMessage>, from: nat, link: nat -> bool, burst: seq<OrderedMessage>, i: nat)
    requires IsBurst(w, from, link, burst) && i < |burst|
    ensures Parked(w, from + i)
  {
    assert burst[i] in multiset(burst);
  }

  lemma EnqueueStaysStuck(
      s: Queue, n: nat, data: Bytes, now: int, link: nat -> bool, burst: seq<OrderedMessage>, k: nat)
    requires EnqueueEnabled(s, n, link, burst) && StuckAt(s, k) && n != k
    ensures StuckAt(AfterEnqueue(s, n, data, now, link, burst), k)
  {
    if EnqueueOutcome(s, n, link) == Accepted && n == s.next {
      if k < n + 1 + |burst| {
        BurstWasParked(s.waiting, n + 1, link, burst, k - (n + 1));
      }
    }
  }

  lemma StaysStuck(s: Queue, step: Step, k: nat)
    requires Enabled(s, step) && StuckAt(s, k) && !Frees(step, k) && !Delivers(step, k)
    ensures StuckAt(Apply(s, step), k)
  {
    if step.Enqueue? {
      EnqueueStaysStuck(s, step.n, step.data, step.now, step.link, step.burst, k);
    }
  }

  /**
   A queue stuck at `k`, to which `k` is not delivered again, passes `k` if and only
   if some resync covers `k`: no send, retry, plain ack or cleanup helps.
   */
  lemma {:induction false} OnlyAResyncFrees(states: seq<Queue>, steps: seq<Step>, k: nat, i: nat)
    requires IsRun(states, steps) && StuckAt(states[0], k) && i < |states|
    requires forall j | 0 <= j < i :: !Delivers(steps[j], k)
    ensures states[i].next > k <==> exists j | 0 <= j < i :: Frees(steps[j], k)
    ensures states[i].next > k || StuckAt(states[i], k)
  {
    if i > 0 {
      OnlyAResyncFrees(states, steps, k, i - 1);
      assert StepAt(states, steps, i - 1);
      FreedInStep(states[i - 1], steps[i - 1], k);
    }
  }

  lemma FreedInStep(s: Queue, step: Step, k: nat)
    requires Enabled(s, step) && !Delivers(step, k) && (s.next > k || StuckAt(s, k))
    ensures Apply(s, step).next > k <==> s.next > k || Frees(step, k)
    ensures Apply(s, step).next > k || StuckAt(Apply(s, step), k)
  {
    GrowsStep(s, step);
    if s.next <= k && !Frees(step, k) {
      StaysStuck(s, step, k);
    }
  }

  lemma WaitingNumberStep(s: Queue, step: Step, low: nat, k: nat)
    requires Enabled(s, step) && low <= s.next && (step.Enqueue? ==> step.n < low || step.n > k)
    ensures Apply(s, step).next > k <==> s.next > k || Frees(step, k)
    ensures s.next <= k && !Frees(step, k) ==> Apply(s, step).firsts == s.firsts
    ensures low <= Apply(s, step).next
  {
    GrowsStep(s, step);
  }

  /**
   A queue that expects at most `k`, and to which nothing up to `k` that it could expect
   is delivered any more, passes `k` if and only if some resync covers `k`, and
   transmits nothing for the first time before.
   */
  lemma {:induction false} SilentUntilResync(states: seq<Queue>, steps: seq<Step>, k: nat, i: nat)
    requires IsRun(states, steps) && states[0].next <= k && i < |states|
    requires forall j | 0 <= j < i && steps[j].Enqueue? :: steps[j].n < states[0].next || steps[j].n > k
    ensures states[i].next > k <==> exists j | 0 <= j < i :: Frees(steps[j], k)
    ensures (forall j | 0 <= j < i :: !Frees(steps[j], k)) ==> states[i].firsts == states[0].firsts
    ensures states[0].next <= states[i].next
  {
    if i > 0 {
      SilentUntilResync(states, steps, k, i - 1);
      assert StepAt(states, steps, i - 1);
      WaitingNumberStep(states[i - 1], steps[i - 1], states[0].next, k);
    }
  }

  /** Until such a resync nothing numbered `k` or more goes out for the first time. */
  lemma NothingPassesALostNumber(states: seq<Queue>, steps: seq<Step>, k: nat, i: nat, p: nat)
    requires IsRun(states, steps) && Stream(states[0]) && StuckAt(states[0], k) && i < |states|
    requires forall j | 0 <= j < i :: !Delivers(steps[j], k) && !Frees(steps[j], k)
    requires p < |states[i].firsts|
    ensures states[i].firsts[p].msg.serverSeq < k
  {
    StreamRun(states, steps, i);
    OnlyAResyncFrees(states, steps, k, i);
  }

  /** A number that is turned away because the queue is full or the send fails is lost. */
  lemma RejectionLoses(s: Queue, n: nat, data: Bytes, now: int, link: nat -> bool)
    requires EnqueueOutcome(s, n, link) in {Full, SendFailed} && s.next <= n
    requires n == s.next || !Parked(s.waiting, n)
    ensures StuckAt(AfterEnqueue(s, n, data, now, link, []), n)
  {
  }

  /** So is a number whose parked message expires. */
  lemma ExpiryLoses(s: Queue, now: int, k: nat)
    requires s.next <= k && Parked(s.waiting, k) && !Parked(AfterCleanup(s, now).waiting, k)
    ensures StuckAt(AfterCleanup(s, now), k)
  {
  }

  /**
   A resync that moves the expected number on leaves the queue stuck at the next one
   exactly when that one is parked already: the message stays parked.
   */
  lemma ResyncStrands(s: Queue, a: nat)
    requires s.next <= a
    ensures var t := AfterResync(s, a);
            && t.next == a + 1 && StuckAt(t, a + 1) && t.firsts == s.firsts
            && (Parked(t.waiting, t.next) <==> Parked(s.waiting, a + 1))
  {
    forall m | m in s.waiting && m.serverSeq == a + 1 ensures m in AfterResync(s, a).waiting {
      assert NewerThan(a)(m);
    }
  }

  /**
   A send that fails inside a drain strands its message too: after a number has gone out,
   the next expected one is parked exactly when it was parked before and its send failed.
   */
  lemma FailedDrainStrands(s: Queue, data: Bytes, now: int, link: nat -> bool, burst: seq<OrderedMessage>)
    requires Orderly(s) && !Parked(s.waiting, s.next)
    requires EnqueueEnabled(s, s.next, link, burst) && EnqueueOutcome(s, s.next, link) == Accepted
    ensures var t := AfterEnqueue(s, s.next, data, now, link, burst);
            && t.next > s.next && StuckAt(t, t.next)
            && (Parked(t.waiting, t.next) <==> Parked(s.waiting, t.next) && !link(t.next))
  {
    RestAfterBurst(s, link, burst);
  }

  lemma RestAfterBurst(s: Queue, link: nat -> bool, burst: seq<OrderedMessage>)
    requires Orderly(s) && !Parked(s.waiting, s.next) && IsBurst(s.waiting, s.next + 1, link, burst)
    ensures var stop := s.next + 1 + |burst|;
            Parked(s.waiting - multiset(burst), stop) <==> Parked(s.waiting, stop) && !link(stop)
  {
    var rest, stop := s.waiting - multiset(burst), s.next + 1 + |burst|;
    forall m | m in rest ensures m.serverSeq >= stop {
      RestIsAhead(s, link, burst, m);
    }
    if Parked(s.waiting, stop) {
      StaysParked(s, burst, stop);
    }
  }

  /**
   Nothing was lost, and still nothing goes out, until a resync covers the number or it is
   delivered a second time.
   */
  lemma StrandedBlocks(states: seq<Queue>, steps: seq<Step>, i: nat)
    requires IsRun(states, steps) && i < |states|
    requires forall j | 0 <= j < i :: !Delivers(steps[j], states[0].next)
    ensures states[i].next > states[0].next <==> exists j | 0 <= j < i :: Frees(steps[j], states[0].next)
    ensures (forall j | 0 <= j < i :: !Frees(steps[j], states[0].next)) ==> states[i].firsts == states[0].firsts
  {
    SilentUntilResync(states, steps, states[0].next, i);
  }

  // ---------- A full queue, a stopped queue ----------

  /**
   A full queue refuses everything, also the number that would drain it: nothing moves until
   a cleanup or a resync makes room.
   */
  lemma {:induction false} FullQueueBlocks(states: seq<Queue>, steps: seq<Step>, i: nat)
    requires IsRun(states, steps) && |states[0].waiting| >= states[0].cap && i < |states|
    requires forall j | 0 <= j < i :: !steps[j].Cleanup? && !steps[j].Resync? && !steps[j].Stop?
    ensures states[i].waiting == states[0].waiting && states[i].next == states[0].next
    ensures states[i].firsts == states[0].firsts && states[i].cap == states[0].cap
  {
    if i > 0 {
      FullQueueBlocks(states, steps, i - 1);
      assert StepAt(states, steps, i - 1);
      FullQueueStep(states[i - 1], steps[i - 1]);
    }
  }

  lemma FullQueueStep(s: Queue, step: Step)
    requires Enabled(s, step) && |s.waiting| >= s.cap && !step.Cleanup? && !step.Resync? && !step.Stop?
    ensures var t := Apply(s, step);
            t.waiting == s.waiting && t.next == s.next && t.firsts == s.firsts && t.cap == s.cap
    ensures step.Enqueue? ==> EnqueueOutcome(s, step.n, step.link) != Accepted
  {
  }

  /** A stopped queue is done with the wire. */
  lemma {:induction false} StoppedIsSilent(states: seq<Queue>, steps: seq<Step>, i: nat, j: nat)
    requires IsRun(states, steps) && i <= j < |states| && Ledger(states[i]) && states[i].stopped
    ensures states[j].stopped && states[j].sent == map[] && states[j].waiting == multiset{}
    ensures states[j].firsts == states[i].firsts && states[j].resends == states[i].resends
    decreases j
  {
    if i < j {
      StoppedIsSilent(states, steps, i, j - 1);
      assert StepAt(states, steps, j - 1);
      StoppedStep(states[j - 1], steps[j - 1]);
    }
  }

  lemma StoppedStep(s: Queue, step: Step)
    requires Enabled(s, step) && s.stopped && s.sent == map[] && s.waiting == multiset{}
    ensures var t := Apply(s, step);
            t.stopped && t.sent == map[] && t.waiting == multiset{} && t.firsts == s.firsts && t.resends == s.resends
    ensures step.Enqueue? ==> EnqueueOutcome(s, step.n, step.link) != Accepted
  {
    if step.Retry? {
      assert FramesOf(s.sent, Resent(s, step.now, step.link)) == {};
      assert s.resends + multiset{} == s.resends;
    }
  }

  /**
   With room, in a queue that runs, the expected number goes out if and only if its send
   gets through, a higher one is parked, and a lower one is refused; and a refused
   message leaves no trace.
   */
  lemma WithRoom(s: Queue, n: nat, data: Bytes, now: int, link: nat -> bool, burst: seq<OrderedMessage>)
    requires EnqueueEnabled(s, n, link, burst) && !s.stopped && |s.waiting| < s.cap
    ensures var t, m := AfterEnqueue(s, n, data, now, link, burst), OrderedMessage(n, data, now, 0, false);
            var accepted := EnqueueOutcome(s, n, link) == Accepted;
            && (accepted <==> n > s.next || (n == s.next && link(n)))
            && (!accepted ==> t == s)
            && (accepted && n == s.next ==> |t.firsts| > |s.firsts| && t.firsts[|s.firsts|] == Transmission(m, now))
            && (accepted && n > s.next ==> t == s.(waiting := s.waiting + multiset{m}))
  {
  }

  /** A resync keeps of what is parked exactly what is numbered above it, if it moves the expected number at all. */
  lemma ResyncKeepsAbove(s: Queue, a: nat)
    ensures forall m :: AfterResync(s, a).waiting[m] == if a >= s.next && m.serverSeq <= a then 0 else s.waiting[m]
    ensures AfterResync(s, a).next == Max(s.next, a + 1) && AfterResync(s, a).firsts == s.firsts
    ensures forall k :: k in AfterResync(s, a).sent <==> k in s.sent && k > a
  {
  }
}
