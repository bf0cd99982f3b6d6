/**
 Conservation and the lower time bound along chains of reconnects. The queue of a session
 and those of the sessions before it in its chain are read as one queue, and the ledger of
 `QueueHistory` balances for that queue, handed-over messages included.
 */
module ChainLedger {
  import opened Common
  import opened QueueSpec
  import opened QueueHistory
  import opened QueueTiming
  import opened SessionSpec
  import opened Reconnect

  /** `q` with the history of `p` before its own. */
  ghost function Continued(p: Queue, q: Queue): Queue {
    q.(firsts := p.firsts + q.firsts, resends := p.resends + q.resends, lastAcked := Max(p.lastAcked, q.lastAcked))
  }

  /** The queue of session `i`, with the history of its whole chain. */
  ghost function Chain(all: seq<Session>, i: nat): Queue
    requires i < |all|
    decreases i
  {
    if all[i].pred.Some? && all[i].pred.value < i
    then Continued(Chain(all, all[i].pred.value), all[i].queue)
    else all[i].queue
  }

  // ---------- A step of a queue is a step of its chain ----------

  lemma EnqueueContinues(
      p: Queue, q: Queue, n: nat, data: Bytes, now: int, link: nat -> bool,
      burst: seq<OrderedMessage>)
    ensures EnqueueOutcome(Continued(p, q), n, link) == EnqueueOutcome(q, n, link)
    ensures AfterEnqueue(Continued(p, q), n, data, now, link, burst) ==
            Continued(p, AfterEnqueue(q, n, data, now, link, burst))
  {
    SeqAssoc(p.firsts, q.firsts, Sends([NewMessage(n, data, now)] + burst, now));
  }

  lemma RetryContinues(p: Queue, q: Queue, now: int, link: nat -> bool)
    ensures AfterRetry(Continued(p, q), now, link) == Continued(p, AfterRetry(q, now, link))
  {
    var frames := multiset(FramesOf(q.sent, Resent(q, now, link)));
    assert Resent(Continued(p, q), now, link) == Resent(q, now, link);
    assert p.resends + q.resends + frames == p.resends + (q.resends + frames);
  }

  lemma StepContinues(p: Queue, q: Queue, step: Step)
    ensures Enabled(Continued(p, q), step) <==> Enabled(q, step)
    ensures Apply(Continued(p, q), step) == Continued(p, Apply(q, step))
  {
    match step
    case Enqueue(n, data, now, link, burst) => EnqueueContinues(p, q, n, data, now, link, burst);
    case Retry(now, link) => RetryContinues(p, q, now, link);
    case _ =>
  }

  lemma StepOfChain(all: seq<Session>, u: Session, i: nat, step: Step)
    requires i < |all| && u.pred == all[i].pred && u.queue == Apply(all[i].queue, step)
    ensures Enabled(Chain(all, i), step) <==> Enabled(all[i].queue, step)
    ensures Chain(all[i := u], i) == Apply(Chain(all, i), step)
  {
    var pred := all[i].pred;
    if pred.Some? && pred.value < i {
      OnlyLaterChainsChange(all, u, i, pred.value);
      StepContinues(Chain(all, pred.value), all[i].queue, step);
    }
  }

  lemma {:induction false} OnlyLaterChainsChange(all: seq<Session>, u: Session, i: nat, j: nat)
    requires j < i < |all|
    ensures Chain(all[i := u], j) == Chain(all, j)
    decreases j
  {
    var pred := all[j].pred;
    if pred.Some? && pred.value < j {
      OnlyLaterChainsChange(all, u, i, pred.value);
    }
  }

  lemma {:induction false} ChainsStay(all: seq<Session>, s: Session, j: nat)
    requires j < |all|
    ensures Chain(all + [s], j) == Chain(all, j)
    decreases j
  {
    var pred := all[j].pred;
    if pred.Some? && pred.value < j {
      ChainsStay(all, s, pred.value);
    }
  }

  // ---------- The invariant ----------

  /**
   The ledger balances, entries have aged as they should, and what has been transmitted
   is numbered, and inherited or below the expected number.
   */
  ghost predicate ChainSound(all: seq<Session>, i: nat)
    requires i < |all|
  {
    var v := Chain(all, i);
    && InOrder(v) && Ledger(v) && Aged(v)
    && (forall p: nat | p < |v.firsts| :: Known(all[i], v.firsts[p].msg.serverSeq))
    && (forall w | w in v.waiting :: w.serverSeq > all[i].base)
  }

  ghost predicate Known(s: Session, n: nat) {
    n <= |s.names| && (n <= s.base || n < s.queue.next)
  }

  ghost predicate AllChainsSound(all: seq<Session>) {
    forall i: nat | i < |all| :: ChainSound(all, i)
  }

  /** What a registered session keeps open. */
  ghost predicate LiveRuns(m: Manager) {
    forall i: nat | i < |m.all| && i in m.sessions :: !m.all[i].queue.stopped
  }

  /** Same transmissions, and acknowledgements at least as high. */
  ghost predicate SameHistory(v: Queue, v': Queue) {
    v'.firsts == v.firsts && v'.resends == v.resends && v'.lastAcked >= v.lastAcked
  }

  /**
   A chain notices a step of another session only by a higher acknowledgement, because only
   the last session transmits.
   */
  lemma {:induction false} OtherChains(m: Manager, u: Session, x: nat, j: nat)
    requires Links(m) && x < |m.all| && j < |m.all|
    requires Evolves(m.all[x], u) && u.queue.lastAcked >= m.all[x].queue.lastAcked
    requires j != x || m.all[x].closed
    ensures SameHistory(Chain(m.all, j), Chain(m.all[x := u], j))
    decreases j
  {
    var pred := m.all[j].pred;
    if pred.Some? && pred.value < j {
      assert TookOver(m, j, pred.value);
      OtherChains(m, u, x, pred.value);
    }
  }

  lemma HigherAckKeeps(all: seq<Session>, all': seq<Session>, j: nat)
    requires j < |all| == |all'| && ChainSound(all, j) && SameHistory(Chain(all, j), Chain(all', j))
    requires all'[j].queue == all[j].queue && all'[j].base == all[j].base && |all[j].names| <= |all'[j].names|
    ensures ChainSound(all', j)
  {
    var v, v' := Chain(all, j), Chain(all', j);
    assert Forgets(v, v');
    ForgetsKeepsLedger(v, v');
    EntriesAgeKeepsAged(v, v');
    forall p: nat | p < |v'.firsts| ensures Known(all'[j], v'.firsts[p].msg.serverSeq) {
      assert Known(all[j], v.firsts[p].msg.serverSeq);
    }
  }

  /** The step of the queue that a step of the session makes, if any. */
  ghost function QueueStep(s: Session, live: bool, step: ManagerStep): Option<Step>
    requires SessionEnabled(s, step)
  {
    match step
    case Push(_, n, now, link, burst) => Some(Enqueue(n, s.names[n - 1], now, link, burst))
    case ClientAck(_, a) => if live then Some(Ack(a)) else None
    case ClientResync(_, a) => Some(Resync(a))
    case Timer(_, inner) => Some(inner)
    case Expire(_) => if live && !s.closed then Some(QueueSpec.Stop) else None
    case _ => None
  }

  lemma SameLineage(s: Session, live: bool, step: ManagerStep)
    requires SessionEnabled(s, step)
    ensures var u := SessionAfter(s, live, step); u.pred == s.pred && u.base == s.base && |s.names| <= |u.names|
  {
  }

  /** The session's queue makes that step, or none. */
  ghost predicate Moves(s: Session, inner: Option<Step>, q: Queue) {
    match inner
    case None => q == s.queue
    case Some(step) =>
      Enabled(s.queue, step) && q == Apply(s.queue, step) && (step.Enqueue? ==> s.base < step.n <= |s.names|)
  }

  lemma PushMoves(s: Session, step: ManagerStep)
    requires SessionEnabled(s, step) && step.Push?
    ensures Moves(s, Some(Enqueue(step.n, s.names[step.n - 1], step.now, step.link, step.burst)),
                  SessionAfter(s, true, step).queue)
    ensures SessionAfter(s, false, step) == SessionAfter(s, true, step)
  {
  }

  lemma OtherMoves(s: Session, live: bool, step: ManagerStep)
    requires SessionEnabled(s, step) && !step.Push?
    ensures Moves(s, QueueStep(s, live, step), SessionAfter(s, live, step).queue)
  {
  }

  lemma QueueAfter(s: Session, live: bool, step: ManagerStep)
    requires SessionEnabled(s, step)
    ensures Moves(s, QueueStep(s, live, step), SessionAfter(s, live, step).queue)
  {
    if step.Push? {
      PushMoves(s, step);
    } else {
      OtherMoves(s, live, step);
    }
  }

  lemma AheadWhenSending(all: seq<Session>, i: nat, step: Step)
    requires i < |all| && ChainSound(all, i) && SendsAtOnce(Chain(all, i), step) && step.n > all[i].base
    ensures Ahead(Chain(all, i))
  {
    var v := Chain(all, i);
    forall p: nat | p < |v.firsts| ensures v.firsts[p].msg.serverSeq < v.next {
      assert Known(all[i], v.firsts[p].msg.serverSeq);
    }
  }

  lemma NewFirstsAreKnown(v: Queue, step: Step, p: nat)
    requires Enabled(v, step) && |v.firsts| <= p < |Apply(v, step).firsts|
    ensures Apply(v, step).firsts[p].msg.serverSeq < Apply(v, step).next
    ensures step.Enqueue?
  {
  }

  lemma OwnFirstIsNamed(all: seq<Session>, u: Session, i: nat, p: nat)
    requires i < |all| && Sound(u) && u.pred == all[i].pred
    requires |Chain(all, i).firsts| - |all[i].queue.firsts| <= p < |Chain(all[i := u], i).firsts|
    requires all[i].queue.firsts <= u.queue.firsts
    ensures Chain(all[i := u], i).firsts[p].msg.serverSeq <= |u.names|
  {
    var pred := all[i].pred;
    if pred.Some? && pred.value < i {
      OnlyLaterChainsChange(all, u, i, pred.value);
    }
  }

  lemma WaitingStaysAbove(q: Queue, step: Step, base: nat)
    requires (forall w | w in q.waiting :: w.serverSeq > base) && (step.Enqueue? ==> step.n > base)
    ensures forall w | w in Apply(q, step).waiting :: w.serverSeq > base
  {
  }

  lemma FirstStaysKnown(all: seq<Session>, u: Session, i: nat, step: Step, p: nat)
    requires i < |all| && ChainSound(all, i) && Sound(u) && |all[i].names| <= |u.names|
    requires u.pred == all[i].pred && u.base == all[i].base
    requires Enabled(all[i].queue, step) && u.queue == Apply(all[i].queue, step)
    requires p < |Apply(Chain(all, i), step).firsts|
    ensures Known(u, Apply(Chain(all, i), step).firsts[p].msg.serverSeq)
  {
    var v := Chain(all, i);
    StepOfChain(all, u, i, step);
    GrowsStep(v, step);
    if p < |v.firsts| {
      assert Known(all[i], v.firsts[p].msg.serverSeq);
    } else {
      NewFirstsAreKnown(v, step, p);
      GrowsStep(all[i].queue, step);
      OwnFirstIsNamed(all, u, i, p);
    }
  }

  /** A step of its own queue keeps the ledger of a chain. */
  lemma OwnChain(all: seq<Session>, u: Session, i: nat, step: Step)
    requires i < |all| && ChainSound(all, i) && Sound(u) && |all[i].names| <= |u.names|
    requires u.pred == all[i].pred && u.base == all[i].base
    requires Enabled(all[i].queue, step) && u.queue == Apply(all[i].queue, step)
    requires step.Enqueue? ==> step.n > all[i].base
    ensures ChainSound(all[i := u], i)
  {
    var v := Chain(all, i);
    StepOfChain(all, u, i, step);
    if SendsAtOnce(v, step) {
      AheadWhenSending(all, i, step);
    }
    LedgerStep(v, step);
    AgedStep(v, step);
    WaitingStaysAbove(v, step, u.base);
    forall p: nat | p < |Apply(v, step).firsts| ensures Known(u, Apply(v, step).firsts[p].msg.serverSeq) {
      FirstStaysKnown(all, u, i, step, p);
    }
  }

  /** A step of a session keeps all chains sound. */
  lemma StepKeepsChains(m: Manager, step: ManagerStep)
    requires AllSound(m) && Links(m) && ManagerEnabled(m, step) && !step.Create? && AllChainsSound(m.all)
    ensures AllChainsSound(ManagerApply(m, step).all)
  {
    var x, live := step.i, step.i in m.sessions;
    var s, u, inner := m.all[x], SessionAfter(m.all[x], live, step), QueueStep(m.all[x], live, step);
    SameLineage(s, live, step);
    QueueAfter(s, live, step);
    SessionEvolves(s, live, step);
    SessionStaysSound(s, live, step);
    if inner.Some? {
      GrowsStep(s.queue, inner.value);
    }
    var all := m.all[x := u];
    forall j: nat | j < |all| ensures ChainSound(all, j) {
      assert ChainSound(m.all, j);
      if j != x {
        OtherChains(m, u, x, j);
        HigherAckKeeps(m.all, all, j);
      } else if inner.Some? {
        OwnChain(m.all, u, x, inner.value);
      } else {
        QuietChain(m.all, u, x);
      }
    }
  }

  /** A step that leaves the queue alone. */
  lemma QuietChain(all: seq<Session>, u: Session, i: nat)
    requires i < |all| && ChainSound(all, i) && u.queue == all[i].queue
    requires u.pred == all[i].pred && u.base == all[i].base && |all[i].names| <= |u.names|
    ensures ChainSound(all[i := u], i)
  {
    var pred := all[i].pred;
    if pred.Some? && pred.value < i {
      OnlyLaterChainsChange(all, u, i, pred.value);
    }
    HigherAckKeeps(all, all[i := u], i);
  }

  lemma AppendKeepsChains(all: seq<Session>, s: Session)
    requires AllChainsSound(all) && ChainSound(all + [s], |all|)
    ensures AllChainsSound(all + [s])
  {
    forall j: nat | j < |all| ensures ChainSound(all + [s], j) {
      ChainsStay(all, s, j);
      assert ChainSound(all, j);
    }
  }

  lemma NewChain(all: seq<Session>, openID: string)
    ensures ChainSound(all + [NewSession(openID)], |all|)
  {
  }

  /** The heir's chain takes over the account of its predecessor's. */
  lemma HeirsChain(all: seq<Session>, p: nat, openID: string, seen: Seen)
    requires p < |all| && ChainSound(all, p) && Sound(all[p]) && !all[p].queue.stopped
    ensures ChainSound(all + [InheritedAs(all[p], p, openID, seen)], |all|)
  {
    var heir := InheritedAs(all[p], p, openID, seen);
    var v, v' := Chain(all, p), Chain(all + [heir], |all|);
    ChainsStay(all, heir, p);
    assert v'.firsts == v.firsts && v'.resends == v.resends;
    assert Forgets(v, v');
    ForgetsKeepsLedger(v, v');
    EntriesAgeKeepsAged(v, v');
    forall k: nat | k < |v'.firsts| ensures Known(heir, v'.firsts[k].msg.serverSeq) {
      assert Known(all[p], v.firsts[k].msg.serverSeq);
    }
  }

  lemma CreateKeepsChains(m: Manager, openID: string, recent: bool, seen: Seen)
    requires AllSound(m) && Links(m) && LiveRuns(m) && AllChainsSound(m.all)
    ensures AllChainsSound(Created(m, openID, recent, seen).all)
  {
    match Predecessor(m, openID, recent)
    case None =>
      NewChain(m.all, openID);
      AppendKeepsChains(m.all, NewSession(openID));
    case Some(p) =>
      var closed := m.all[p := m.all[p].(closed := true)];
      CloseKeepsChains(m, p);
      HeirsChain(closed, p, openID, seen);
      assert InheritedAs(closed[p], p, openID, seen) == InheritedAs(m.all[p], p, openID, seen);
      AppendKeepsChains(closed, InheritedAs(closed[p], p, openID, seen));
  }

  lemma CloseKeepsChains(m: Manager, p: nat)
    requires Links(m) && p < |m.all| && AllChainsSound(m.all)
    ensures AllChainsSound(m.all[p := m.all[p].(closed := true)])
  {
    var u := m.all[p].(closed := true);
    var all := m.all[p := u];
    forall j: nat | j < |all| ensures ChainSound(all, j) {
      assert ChainSound(m.all, j);
      if j != p {
        OtherChains(m, u, p, j);
        HigherAckKeeps(m.all, all, j);
      } else {
        QuietChain(m.all, u, p);
      }
    }
  }

  lemma OnlyExpiryStops(s: Session, live: bool, step: ManagerStep)
    requires SessionEnabled(s, step) && !s.queue.stopped && !step.Expire?
    ensures !SessionAfter(s, live, step).queue.stopped
  {
  }

  lemma LiveRunsStep(m: Manager, step: ManagerStep)
    requires LiveRuns(m) && ManagerEnabled(m, step)
    ensures LiveRuns(ManagerApply(m, step))
  {
    if !step.Create? {
      if step.i in m.sessions && !step.Expire? {
        OnlyExpiryStops(m.all[step.i], true, step);
      }
    }
  }

  lemma {:induction false} ChainRun(states: seq<Manager>, steps: seq<ManagerStep>, k: nat)
    requires IsManagerRun(states, steps) && k < |states|
    ensures LiveRuns(states[k]) && AllChainsSound(states[k].all)
  {
    if k > 0 {
      ChainRun(states, steps, k - 1);
      ManagerRun(states, steps, k - 1);
      var m, step := states[k - 1], steps[k - 1];
      assert ManagerStepAt(states, steps, k - 1);
      LiveRunsStep(m, step);
      if step.Create? {
        CreateKeepsChains(m, step.openID, step.recent, step.seen);
      } else {
        StepKeepsChains(m, step);
      }
    }
  }

  // ---------- What follows ----------

  /**
   Conservation along a chain: whatever the chain has transmitted is pending in its last
   queue, acknowledged to one of its queues, or was sent 1 + MAX_RETRIES times, counted
   over all of them; no number is transmitted first by two of them; and nothing else is
   kept or resent.
   */
  lemma ChainConservation(states: seq<Manager>, steps: seq<ManagerStep>, k: nat, i: nat)
    requires IsManagerRun(states, steps) && k < |states| && i < |states[k].all|
    ensures InOrder(Chain(states[k].all, i)) && Ledger(Chain(states[k].all, i))
  {
    ChainRun(states, steps, k);
    assert ChainSound(states[k].all, i);
  }

  lemma CleanupGivesUp(s: Session, live: bool, step: ManagerStep, n: nat)
    requires SessionEnabled(s, step) && step.Timer? && step.step.Cleanup?
    requires n in s.queue.sent && n !in SessionAfter(s, live, step).queue.sent
    ensures GivenUp(s.queue.sent[n], step.step.now)
  {
  }

  /**
   Handing a message over does not shorten its time: given up, it has waited more than 75
   seconds since it was enqueued, by whichever session.
   */
  lemma NeverGivenUpEarlyInChain(states: seq<Manager>, steps: seq<ManagerStep>, k: nat, n: nat)
    requires IsManagerRun(states, steps) && k < |steps|
    requires steps[k].Timer? && steps[k].step.Cleanup?
    requires steps[k].i < |states[k].all| && steps[k].i < |states[k + 1].all|
    requires n in states[k].all[steps[k].i].queue.sent && n !in states[k + 1].all[steps[k].i].queue.sent
    ensures WaitedEnough(Chain(states[k].all, steps[k].i), n, steps[k].step.now)
  {
    ChainRun(states, steps, k);
    assert ManagerStepAt(states, steps, k);
    assert ChainSound(states[k].all, steps[k].i);
    var m, step := states[k], steps[k];
    CleanupGivesUp(m.all[step.i], step.i in m.sessions, step, n);
    GivenUpLate(Chain(m.all, step.i), step.step.now, n);
  }
}
