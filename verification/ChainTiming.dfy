/**
 The upper time bound along chains of reconnects: how long an open session keeps a message
 that was transmitted by it or by a session before it in its chain.
 */
module ChainTiming {
  import opened Common
  import opened QueueSpec
  import opened QueueHistory
  import opened QueueTiming
  import opened SessionSpec
  import opened Reconnect
  import opened ChainLedger

  /**
   All sessions with a clock, and for each session the times of its latest cleanup and its
   latest retry round while it was open, and its lag.
   */
  datatype Clocked = Clocked(manager: Manager, clock: int, cleaned: seq<int>, retried: seq<int>, lags: seq<int>)

  ghost predicate Sized(s: Clocked) {
    |s.cleaned| == |s.retried| == |s.lags| == |s.manager.all|
  }

  /** The chain of session `i`, read as one queue with a clock. */
  ghost function TimedChain(s: Clocked, i: nat): Timed
    requires Sized(s) && i < |s.manager.all|
  {
    Timed(Chain(s.manager.all, i), s.clock, s.cleaned[i], s.retried[i], s.lags[i])
  }

  ghost predicate IsOpen(s: Clocked, i: nat) {
    i < |s.manager.all| && !s.manager.all[i].closed
  }

  /** Step `step` taken at time `at`, no tick of an open session being overdue; its retry rounds always get through. */
  ghost predicate ClockedEnabled(s: Clocked, step: ManagerStep, at: int) {
    && Sized(s) && ManagerEnabled(s.manager, step) && s.clock <= at
    && (forall i: nat | IsOpen(s, i) :: at <= s.cleaned[i] + TICK && at <= s.retried[i] + TICK)
    && (step.Push? ==> step.now == at)
    && (step.Timer? ==> step.step.now == at)
    && (step.Timer? && step.step.Retry? && IsOpen(s, step.i) ==> Always(step.step.link))
  }

  /** What a hand-over adds: the heir's ticker starts anew, so the time since the predecessor's last ticks is lost. */
  ghost function LagAfter(s: Clocked, step: ManagerStep, at: int): int
    requires Sized(s) && step.Create?
  {
    match Predecessor(s.manager, step.openID, step.recent)
    case None => 0
    case Some(p) => s.lags[p] + at - Min(s.cleaned[p], s.retried[p])
  }

  ghost function ClockedApply(s: Clocked, step: ManagerStep, at: int): Clocked
    requires ClockedEnabled(s, step, at)
  {
    var m := ManagerApply(s.manager, step);
    if step.Create? then
      Clocked(m, at, s.cleaned + [at], s.retried + [at], s.lags + [LagAfter(s, step, at)])
    else
      var ticks := step.Timer? && IsOpen(s, step.i);
      Clocked(m, at,
              if ticks && step.step.Cleanup? then s.cleaned[step.i := at] else s.cleaned,
              if ticks && step.step.Retry? then s.retried[step.i := at] else s.retried,
              s.lags)
  }

  ghost predicate ClockedStepAt(states: seq<Clocked>, steps: seq<ManagerStep>, times: seq<int>, k: nat)
    requires |states| == |steps| + 1 == |times| + 1 && k < |steps|
  {
    ClockedEnabled(states[k], steps[k], times[k]) && states[k + 1] == ClockedApply(states[k], steps[k], times[k])
  }

  ghost predicate IsClockedRun(states: seq<Clocked>, steps: seq<ManagerStep>, times: seq<int>) {
    && |states| == |steps| + 1 == |times| + 1
    && states[0].manager == Manager([], {}, map[]) && Sized(states[0])
    && forall k: nat | k < |steps| :: ClockedStepAt(states, steps, times, k)
  }

  // ---------- The invariant ----------

  /** Every chain is on schedule, and the ticks of open sessions are not overdue. */
  ghost predicate ClockSound(s: Clocked) {
    && Sized(s)
    && (forall i: nat | i < |s.manager.all| :: Punctual(TimedChain(s, i)))
    && (forall i: nat | IsOpen(s, i) :: OnTime(TimedChain(s, i)))
  }

  ghost predicate ManagerSound(m: Manager) {
    AllSound(m) && Links(m) && LiveRuns(m) && AllChainsSound(m.all)
  }

  lemma ManagerSoundStep(m: Manager, step: ManagerStep)
    requires ManagerSound(m) && ManagerEnabled(m, step)
    ensures ManagerSound(ManagerApply(m, step))
  {
    ManagerStepKeeps(m, step);
    LiveRunsStep(m, step);
    if step.Create? {
      CreateKeepsChains(m, step.openID, step.recent, step.seen);
    } else {
      StepKeepsChains(m, step);
    }
  }

  /** A queue that transmits nothing, and keeps no more than before, stays on schedule as time goes by. */
  lemma IdleStaysPunctual(s: Timed, t: Timed)
    requires Punctual(s) && s.clock <= t.clock
    requires t.cleaned == s.cleaned && t.retried == s.retried && t.lag == s.lag
    requires t.queue.firsts == s.queue.firsts
    requires forall k | k in t.queue.sent :: k in s.queue.sent && t.queue.sent[k] == s.queue.sent[k]
    requires forall m | m in t.queue.waiting :: m.timestamp <= t.clock
    ensures Punctual(t)
  {
    forall p: nat | p < |t.queue.firsts| ensures OnSchedule(t, p) {
      assert OnSchedule(s, p);
    }
  }

  lemma OwnFields(all: seq<Session>, i: nat)
    requires i < |all|
    ensures var v, q := Chain(all, i), all[i].queue;
            && v.sent == q.sent && v.waiting == q.waiting && v.next == q.next
            && v.stopped == q.stopped && v.cap == q.cap && v.lastSent == q.lastSent && v.skipped == q.skipped
  {
  }

  /** From `q` to `q'` nothing new is kept for retransmission, and what is newly parked was enqueued at time `at`. */
  ghost predicate Dwindles(q: Queue, q': Queue, at: int) {
    && (forall k | k in q'.sent :: k in q.sent && q'.sent[k] == q.sent[k])
    && (forall m | m in q'.waiting :: m in q.waiting || m.timestamp == at)
  }

  /** A step of a closed session restamps nothing. */
  lemma ClosedStepIdles(s: Session, live: bool, step: ManagerStep, at: int)
    requires SessionEnabled(s, step) && s.closed && (step.Push? ==> step.now == at)
    ensures Dwindles(s.queue, SessionAfter(s, live, step).queue, at)
  {
    if step.Timer? && step.step.Retry? {
      assert Resent(s.queue, step.step.now, step.step.link) == {};
    } else if step.Push? {
      ClosedPushParks(s.queue, step.n, s.names[step.n - 1], step.now, step.link, step.burst);
    }
  }

  lemma ClosedPushParks(q: Queue, n: nat, data: Bytes, now: int, link: nat -> bool, burst: seq<OrderedMessage>)
    requires forall k :: !link(k)
    ensures var t := AfterEnqueue(q, n, data, now, link, burst);
            t.sent == q.sent && forall m | m in t.waiting :: m in q.waiting || m.timestamp == now
  {
  }

  /** What a step of session `step.i` leaves of the chain of `j` to look at. */
  ghost predicate IdleFor(s: Clocked, step: ManagerStep, j: nat)
    requires !step.Create? && j < |s.manager.all| && (j == step.i ==> SessionEnabled(s.manager.all[j], step))
  {
    j != step.i || !IsOpen(s, j) || QueueStep(s.manager.all[j], j in s.manager.sessions, step).None?
  }

  lemma IdleStep(s: Session, live: bool, step: ManagerStep, at: int)
    requires SessionEnabled(s, step) && (step.Push? ==> step.now == at)
    requires s.closed || QueueStep(s, live, step).None?
    ensures Dwindles(s.queue, SessionAfter(s, live, step).queue, at)
  {
    if s.closed {
      ClosedStepIdles(s, live, step, at);
    } else {
      QueueAfter(s, live, step);
    }
  }

  /** The queue of `j` after the step keeps no more than before, and what it has parked since was parked now. */
  lemma IdleQueue(s: Clocked, step: ManagerStep, at: int, j: nat)
    requires ClockedEnabled(s, step, at) && !step.Create? && j < |s.manager.all| && IdleFor(s, step, j)
    ensures Dwindles(s.manager.all[j].queue, ClockedApply(s, step, at).manager.all[j].queue, at)
  {
    if j == step.i {
      IdleStep(s.manager.all[j], j in s.manager.sessions, step, at);
    }
  }

  lemma IdleHistory(s: Clocked, step: ManagerStep, at: int, j: nat)
    requires ManagerSound(s.manager) && ClockedEnabled(s, step, at) && !step.Create?
    requires j < |s.manager.all| && IdleFor(s, step, j)
    ensures Chain(ClockedApply(s, step, at).manager.all, j).firsts == Chain(s.manager.all, j).firsts
  {
    var m, x := s.manager, step.i;
    var live, u := x in m.sessions, SessionAfter(m.all[x], x in m.sessions, step);
    SessionEvolves(m.all[x], live, step);
    AckedGrows(m.all[x], live, step);
    if j == x && !m.all[x].closed {
      QueueAfter(m.all[x], live, step);
      QuietKeepsChain(m.all, u, x);
    } else {
      OtherChains(m, u, x, j);
    }
  }

  /** The chain of another session, or of one that steps while it is closed or leaves its queue alone. */
  lemma IdleChain(s: Clocked, step: ManagerStep, at: int, j: nat)
    requires ManagerSound(s.manager) && ClockSound(s) && ClockedEnabled(s, step, at) && !step.Create?
    requires j < |s.manager.all| && IdleFor(s, step, j)
    ensures Punctual(TimedChain(ClockedApply(s, step, at), j))
  {
    var t := ClockedApply(s, step, at);
    IdleHistory(s, step, at, j);
    IdleQueue(s, step, at, j);
    OwnFields(s.manager.all, j);
    OwnFields(t.manager.all, j);
    SameTicks(s, step, at, j);
    IdleStaysPunctual(TimedChain(s, j), TimedChain(t, j));
  }

  lemma SameTicks(s: Clocked, step: ManagerStep, at: int, j: nat)
    requires ClockedEnabled(s, step, at) && !step.Create? && j < |s.manager.all| && IdleFor(s, step, j)
    ensures var t := ClockedApply(s, step, at);
            t.cleaned[j] == s.cleaned[j] && t.retried[j] == s.retried[j] && t.lags[j] == s.lags[j] && t.clock >= s.clock
  {
  }

  lemma AckedGrows(s: Session, live: bool, step: ManagerStep)
    requires SessionEnabled(s, step)
    ensures SessionAfter(s, live, step).queue.lastAcked >= s.queue.lastAcked
  {
    QueueAfter(s, live, step);
    if QueueStep(s, live, step).Some? {
      GrowsStep(s.queue, QueueStep(s, live, step).value);
    }
  }

  lemma QuietKeepsChain(all: seq<Session>, u: Session, i: nat)
    requires i < |all| && u.queue == all[i].queue && u.pred == all[i].pred
    ensures Chain(all[i := u], i) == Chain(all, i)
  {
    var pred := all[i].pred;
    if pred.Some? && pred.value < i {
      OnlyLaterChainsChange(all, u, i, pred.value);
    }
  }

  /** The chain of an open session makes that session's step. */
  lemma OpenChainSteps(s: Clocked, step: ManagerStep, at: int, inner: Step)
    requires ClockedEnabled(s, step, at) && !step.Create? && IsOpen(s, step.i)
    requires QueueStep(s.manager.all[step.i], step.i in s.manager.sessions, step) == Some(inner)
    ensures PromptEnabled(TimedChain(s, step.i), inner, at)
    ensures TimedChain(ClockedApply(s, step, at), step.i) == PromptApply(TimedChain(s, step.i), inner, at)
    ensures inner.Enqueue? ==> inner.n > s.manager.all[step.i].base
  {
    var m, x := s.manager, step.i;
    var live := x in m.sessions;
    QueueAfter(m.all[x], live, step);
    SameLineage(m.all[x], live, step);
    StepOfChain(m.all, SessionAfter(m.all[x], live, step), x, inner);
  }

  /** So it is on schedule by its own ticks. */
  lemma OpenChain(s: Clocked, step: ManagerStep, at: int, inner: Step)
    requires ManagerSound(s.manager) && ClockSound(s) && ClockedEnabled(s, step, at) && !step.Create?
    requires IsOpen(s, step.i) && QueueStep(s.manager.all[step.i], step.i in s.manager.sessions, step) == Some(inner)
    ensures Punctual(TimedChain(ClockedApply(s, step, at), step.i))
  {
    OpenChainSteps(s, step, at, inner);
    assert ChainSound(s.manager.all, step.i);
    if SendsAtOnce(Chain(s.manager.all, step.i), inner) {
      AheadWhenSending(s.manager.all, step.i, inner);
    }
    PunctualStep(TimedChain(s, step.i), inner, at);
  }

  lemma StepStaysOnTime(s: Clocked, step: ManagerStep, at: int)
    requires ManagerSound(s.manager) && ClockSound(s) && ClockedEnabled(s, step, at) && !step.Create?
    ensures ClockSound(ClockedApply(s, step, at))
  {
    var t := ClockedApply(s, step, at);
    forall j: nat | j < |t.manager.all| ensures Punctual(TimedChain(t, j)) {
      if IdleFor(s, step, j) {
        IdleChain(s, step, at, j);
      } else {
        OpenChain(s, step, at, QueueStep(s.manager.all[j], j in s.manager.sessions, step).value);
      }
    }
    forall j: nat | IsOpen(t, j) ensures OnTime(TimedChain(t, j)) {
      StaysClosed(s.manager.all[step.i], step.i in s.manager.sessions, step);
      assert IsOpen(s, j);
    }
  }

  lemma StaysClosed(s: Session, live: bool, step: ManagerStep)
    requires SessionEnabled(s, step)
    ensures s.closed ==> SessionAfter(s, live, step).closed
  {
    SessionEvolves(s, live, step);
  }

  // ---------- Hand-over ----------

  /** An heir is on the schedule of its predecessor, later by the time since the latest ticks. */
  lemma HandOverStaysPunctual(s: Timed, t: Timed)
    requires Punctual(s) && s.clock <= t.clock
    requires t.cleaned == t.retried == t.clock && t.lag == s.lag + t.clock - Min(s.cleaned, s.retried)
    requires t.queue.firsts == s.queue.firsts && t.queue.sent == s.queue.sent && t.queue.waiting == multiset{}
    ensures Punctual(t) && OnTime(t)
  {
    forall p: nat | p < |t.queue.firsts| ensures OnSchedule(t, p) {
      assert OnSchedule(s, p);
    }
  }

  /** Closing the predecessor and adding a session leave the other chains as they are. */
  lemma CreateKeepsOtherChains(m: Manager, openID: string, recent: bool, seen: Seen, j: nat)
    requires ManagerSound(m) && j < |m.all|
    ensures var c, all := Chain(Created(m, openID, recent, seen).all, j), m.all;
            c.firsts == Chain(all, j).firsts && c.sent == Chain(all, j).sent && c.waiting == Chain(all, j).waiting
  {
    match Predecessor(m, openID, recent)
    case None => ChainsStay(m.all, NewSession(openID), j);
    case Some(p) =>
      var closed := m.all[p := m.all[p].(closed := true)];
      var u := m.all[p].(closed := true);
      ChainsStay(closed, InheritedAs(m.all[p], p, openID, seen), j);
      if j == p {
        QuietKeepsChain(m.all, u, p);
      } else {
        OtherChains(m, u, p, j);
        OwnFields(m.all, j);
        OwnFields(closed, j);
      }
  }

  lemma NewChainOnTime(s: Clocked, step: ManagerStep, at: int)
    requires ManagerSound(s.manager) && ClockSound(s) && ClockedEnabled(s, step, at) && step.Create?
    ensures var t, i := ClockedApply(s, step, at), |s.manager.all|;
            Punctual(TimedChain(t, i)) && OnTime(TimedChain(t, i))
  {
    var m, t, i := s.manager, ClockedApply(s, step, at), |s.manager.all|;
    match Predecessor(m, step.openID, step.recent)
    case None => assert Chain(t.manager.all, i) == Init(QUEUE_SIZE);
    case Some(p) =>
      HeirsHistory(m, step.openID, step.recent, step.seen, p);
      OwnFields(m.all, p);
      OwnFields(t.manager.all, i);
      HandOverStaysPunctual(TimedChain(s, p), TimedChain(t, i));
  }

  lemma HeirsHistory(m: Manager, openID: string, recent: bool, seen: Seen, p: nat)
    requires ManagerSound(m) && Predecessor(m, openID, recent) == Some(p)
    ensures Chain(Created(m, openID, recent, seen).all, |m.all|).firsts == Chain(m.all, p).firsts
  {
    CreateKeepsOtherChains(m, openID, recent, seen, p);
    var all := Created(m, openID, recent, seen).all;
    assert all[|m.all|].pred == Some(p) && all[|m.all|].queue.firsts == [];
  }

  lemma CreateStaysOnTime(s: Clocked, step: ManagerStep, at: int)
    requires ManagerSound(s.manager) && ClockSound(s) && ClockedEnabled(s, step, at) && step.Create?
    ensures ClockSound(ClockedApply(s, step, at))
  {
    var m, t := s.manager, ClockedApply(s, step, at);
    NewChainOnTime(s, step, at);
    forall j: nat | j < |m.all| ensures Punctual(TimedChain(t, j)) {
      CreateKeepsOtherChains(m, step.openID, step.recent, step.seen, j);
      IdleStaysPunctual(TimedChain(s, j), TimedChain(t, j));
    }
    forall j: nat | IsOpen(t, j) ensures OnTime(TimedChain(t, j)) {
      if j < |m.all| {
        assert IsOpen(s, j);
      }
    }
  }

  lemma {:induction false} ClockedRun(states: seq<Clocked>, steps: seq<ManagerStep>, times: seq<int>, k: nat)
    requires IsClockedRun(states, steps, times) && k < |states|
    ensures ManagerSound(states[k].manager) && ClockSound(states[k])
  {
    if k > 0 {
      ClockedRun(states, steps, times, k - 1);
      assert ClockedStepAt(states, steps, times, k - 1);
      ManagerSoundStep(states[k - 1].manager, steps[k - 1]);
      if steps[k - 1].Create? {
        CreateStaysOnTime(states[k - 1], steps[k - 1], times[k - 1]);
      } else {
        StepStaysOnTime(states[k - 1], steps[k - 1], times[k - 1]);
      }
    }
  }

  /** Message `p` of the chain of `i` went out first more than `limit` ago, and the lag of `i`. */
  ghost predicate Overdue(s: Clocked, i: nat, p: nat, limit: int) {
    && Sized(s) && i < |s.manager.all| && p < |Chain(s.manager.all, i).firsts|
    && s.clock > Chain(s.manager.all, i).firsts[p].at + limit + s.lags[i]
  }

  /**
   With ticks at most ten seconds apart and retries that get through, an open session keeps
   nothing for more than 115 seconds and its lag after the first transmission, by whichever
   session of its chain.
   */
  lemma GivenUpInTimeInChain(
      states: seq<Clocked>, steps: seq<ManagerStep>, times: seq<int>, k: nat, i: nat, p: nat)
    requires IsClockedRun(states, steps, times) && k < |states|
    requires IsOpen(states[k], i) && Overdue(states[k], i, p, 115 * SECOND)
    ensures Chain(states[k].manager.all, i).firsts[p].msg.serverSeq !in states[k].manager.all[i].queue.sent
  {
    ClockedRun(states, steps, times, k);
    OwnFields(states[k].manager.all, i);
    if Chain(states[k].manager.all, i).firsts[p].msg.serverSeq in states[k].manager.all[i].queue.sent {
      KeptOnTime(TimedChain(states[k], i), p);
    }
  }

  // ---------- The lag ----------

  /** How many hand-overs there are before session `i`. */
  ghost function HandOvers(all: seq<Session>, i: nat): nat
    requires i < |all|
    decreases i
  {
    if all[i].pred.Some? && all[i].pred.value < i then 1 + HandOvers(all, all[i].pred.value) else 0
  }

  lemma {:induction false} HandOversStay(all: seq<Session>, all': seq<Session>, i: nat)
    requires i < |all| <= |all'| && forall j: nat | j <= i :: all'[j].pred == all[j].pred
    ensures HandOvers(all', i) == HandOvers(all, i)
    decreases i
  {
    var pred := all[i].pred;
    if pred.Some? && pred.value < i {
      HandOversStay(all, all', pred.value);
    }
  }

  /** Sessions are taken over while they are open. */
  ghost predicate TakesOverOpen(s: Clocked, step: ManagerStep) {
    step.Create? ==>
      match Predecessor(s.manager, step.openID, step.recent)
      case None => true
      case Some(p) => IsOpen(s, p)
  }

  ghost predicate LagsBounded(s: Clocked) {
    Sized(s) && forall i: nat | i < |s.lags| :: s.lags[i] <= HandOvers(s.manager.all, i) * TICK
  }

  lemma PredsStay(m: Manager, step: ManagerStep)
    requires ManagerEnabled(m, step)
    ensures |m.all| <= |ManagerApply(m, step).all|
    ensures forall j: nat | j < |m.all| :: ManagerApply(m, step).all[j].pred == m.all[j].pred
  {
    if !step.Create? {
      SameLineage(m.all[step.i], step.i in m.sessions, step);
    }
  }

  lemma NewLag(s: Clocked, step: ManagerStep, at: int)
    requires ClockedEnabled(s, step, at) && LagsBounded(s) && TakesOverOpen(s, step) && step.Create?
    ensures LagAfter(s, step, at) <= HandOvers(ManagerApply(s.manager, step).all, |s.manager.all|) * TICK
  {
    var m := s.manager;
    PredsStay(m, step);
    match Predecessor(m, step.openID, step.recent)
    case None =>
    case Some(p) => HandOversStay(m.all, ManagerApply(m, step).all, p);
  }

  lemma LagStep(s: Clocked, step: ManagerStep, at: int)
    requires ClockedEnabled(s, step, at) && LagsBounded(s) && TakesOverOpen(s, step)
    ensures LagsBounded(ClockedApply(s, step, at))
  {
    var m, t := s.manager, ClockedApply(s, step, at);
    PredsStay(m, step);
    forall i: nat | i < |t.lags| ensures t.lags[i] <= HandOvers(t.manager.all, i) * TICK {
      if i < |m.all| {
        HandOversStay(m.all, t.manager.all, i);
      } else {
        NewLag(s, step, at);
      }
    }
  }

  /** If every session is taken over while it is open, each hand-over adds at most one tick. */
  lemma {:induction false} LagRun(states: seq<Clocked>, steps: seq<ManagerStep>, times: seq<int>, k: nat)
    requires IsClockedRun(states, steps, times) && k < |states|
    requires forall j | 0 <= j < k :: TakesOverOpen(states[j], steps[j])
    ensures LagsBounded(states[k])
  {
    if k > 0 {
      LagRun(states, steps, times, k - 1);
      assert ClockedStepAt(states, steps, times, k - 1);
      LagStep(states[k - 1], steps[k - 1], times[k - 1]);
    }
  }
}
