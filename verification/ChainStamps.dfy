/** How far apart the retransmissions of a number are along a chain of reconnects. */
module ChainStamps {
  import opened Common
  import opened QueueSpec
  import opened QueueHistory
  import opened QueueStamps
  import opened SessionSpec
  import opened Reconnect
  import opened ChainLedger
  import opened Lineage

  /** Step `k` puts number `n` on the wire of session `x` again. */
  ghost predicate ResendsOn(states: seq<Manager>, steps: seq<ManagerStep>, k: nat, x: nat, n: nat)
    requires k < |steps| < |states|
  {
    && x < |states[k].all| && x < |states[k + 1].all|
    && exists f: Frame :: f.serverSeq == n && states[k + 1].all[x].queue.resends[f] > states[k].all[x].queue.resends[f]
  }

  /** Only a retry round of an open session does that: it finds the number due, and stamps it with its time. */
  lemma ResendIsRetry(m: Manager, step: ManagerStep, x: nat, f: Frame)
    requires ManagerEnabled(m, step) && x < |m.all| && x < |ManagerApply(m, step).all|
    requires ManagerApply(m, step).all[x].queue.resends[f] > m.all[x].queue.resends[f]
    ensures !step.Create? && step.i == x && step.Timer? && step.step.Retry? && !m.all[x].closed
    ensures var q, q' := m.all[x].queue, ManagerApply(m, step).all[x].queue;
            && f.serverSeq in q.sent && step.step.now - q.sent[f.serverSeq].timestamp > 15 * SECOND
            && f.serverSeq in q'.sent && q'.sent[f.serverSeq].timestamp == step.step.now
  {
    if !step.Create? && step.i == x {
      SessionEvolves(m.all[x], x in m.sessions, step);
      QueueAfter(m.all[x], x in m.sessions, step);
      var inner := QueueStep(m.all[x], x in m.sessions, step);
      if inner.Some? {
        ResendStamps(m.all[x].queue, inner.value, f);
      }
    }
  }

  /** Session `z` has left number `n` behind, and keeps it, if at all, with a stamp of `t` or later. */
  ghost predicate StampedSince(s: Session, n: nat, t: int) {
    Known(s, n) && (n in s.queue.sent ==> s.queue.sent[n].timestamp >= t)
  }

  /** That goes for `x` and for all that come after it in its chain. */
  ghost predicate ChainStamped(m: Manager, x: nat, n: nat, t: int) {
    x < |m.all| && forall z: nat | z < |m.all| && Precedes(m, x, z) :: StampedSince(m.all[z], n, t)
  }

  /** What was left behind is not transmitted anew, and is restamped only to a later time. */
  lemma LeftBehindRises(q: Queue, step: Step, n: nat, base: nat)
    requires Enabled(q, step) && (n <= base || n < q.next) && n in Apply(q, step).sent
    requires (forall w | w in q.waiting :: w.serverSeq > base) && (step.Enqueue? ==> step.n > base)
    ensures n in q.sent && Apply(q, step).sent[n].timestamp >= q.sent[n].timestamp
  {
    if SendsAtOnce(q, step) {
      SentIsAboveBase(q, step, n, base);
    }
  }

  lemma SentIsAboveBase(q: Queue, step: Step, n: nat, base: nat)
    requires Enabled(q, step) && SendsAtOnce(q, step) && step.n > base
    requires n in Apply(q, step).sent && (n <= base || n < q.next)
    ensures n in q.sent && Apply(q, step).sent[n] == q.sent[n]
  {
  }

  lemma OwnStamps(s: Session, live: bool, step: ManagerStep, n: nat, t: int)
    requires SessionEnabled(s, step) && StampedSince(s, n, t) && forall w | w in s.queue.waiting :: w.serverSeq > s.base
    ensures StampedSince(SessionAfter(s, live, step), n, t)
  {
    SameLineage(s, live, step);
    QueueAfter(s, live, step);
    var inner, u := QueueStep(s, live, step), SessionAfter(s, live, step);
    if inner.Some? {
      GrowsStep(s.queue, inner.value);
      if n in u.queue.sent {
        LeftBehindRises(s.queue, inner.value, n, s.base);
      }
    }
  }

  lemma StampsStep(m: Manager, step: ManagerStep, x: nat, n: nat, t: int)
    requires AllSound(m) && AllChainsSound(m.all) && ManagerEnabled(m, step)
    requires ChainStamped(m, x, n, t) && !step.Create?
    ensures ChainStamped(ManagerApply(m, step), x, n, t)
  {
    var after := ManagerApply(m, step);
    PredsStayInStep(m, step);
    forall z: nat | z < |after.all| && Precedes(after, x, z) ensures StampedSince(after.all[z], n, t) {
      PrecedesStays(m, after, x, z);
      assert ChainSound(m.all, z);
      if z == step.i {
        AboveBase(m.all, z);
        OwnStamps(m.all[z], z in m.sessions, step, n, t);
      }
    }
  }

  lemma AboveBase(all: seq<Session>, z: nat)
    requires z < |all| && ChainSound(all, z)
    ensures forall w | w in all[z].queue.waiting :: w.serverSeq > all[z].base
  {
    assert Chain(all, z).waiting == all[z].queue.waiting;
  }

  lemma StampsCreate(m: Manager, step: ManagerStep, x: nat, n: nat, t: int)
    requires AllSound(m) && ManagerEnabled(m, step) && ChainStamped(m, x, n, t) && step.Create?
    ensures ChainStamped(ManagerApply(m, step), x, n, t)
  {
    var after, i := ManagerApply(m, step), |m.all|;
    PredsStayInStep(m, step);
    forall z: nat | z < |after.all| && Precedes(after, x, z) ensures StampedSince(after.all[z], n, t) {
      if z < i {
        PrecedesStays(m, after, x, z);
        assert StampedSince(m.all[z], n, t);
      } else {
        HeirStamped(m, step, x, n, t);
      }
    }
  }

  lemma HeirStamped(m: Manager, step: ManagerStep, x: nat, n: nat, t: int)
    requires AllSound(m) && ManagerEnabled(m, step) && ChainStamped(m, x, n, t) && step.Create?
    requires |ManagerApply(m, step).all| == |m.all| + 1 && Precedes(ManagerApply(m, step), x, |m.all|)
    ensures StampedSince(ManagerApply(m, step).all[|m.all|], n, t)
  {
    var after, i := ManagerApply(m, step), |m.all|;
    PredsStayInStep(m, step);
    match Predecessor(m, step.openID, step.recent)
    case None =>
    case Some(p) =>
      HeirTakesAfter(m, step.openID, step.recent, step.seen, p);
      PrecedesStays(m, after, x, p);
      assert StampedSince(m.all[p], n, t) && Sound(m.all[p]);
  }

  lemma {:induction false} StampsRun(
      states: seq<Manager>, steps: seq<ManagerStep>, k: nat, l: nat, x: nat, n: nat, t: int)
    requires IsManagerRun(states, steps) && k <= l < |states| && ChainStamped(states[k], x, n, t)
    ensures ChainStamped(states[l], x, n, t)
    decreases l
  {
    if k < l {
      StampsRun(states, steps, k, l - 1, x, n, t);
      assert AllSound(states[l - 1]) by {
        ManagerRun(states, steps, l - 1);
      }
      assert AllChainsSound(states[l - 1].all) by {
        ChainRun(states, steps, l - 1);
      }
      assert ManagerStepAt(states, steps, l - 1);
      AnyStampsStep(states[l - 1], steps[l - 1], x, n, t);
    }
  }

  lemma AnyStampsStep(m: Manager, step: ManagerStep, x: nat, n: nat, t: int)
    requires AllSound(m) && AllChainsSound(m.all) && ManagerEnabled(m, step) && ChainStamped(m, x, n, t)
    ensures ChainStamped(ManagerApply(m, step), x, n, t)
  {
    if step.Create? {
      StampsCreate(m, step, x, n, t);
    } else {
      StampsStep(m, step, x, n, t);
    }
  }

  /** An open session is the last of its chain. */
  lemma {:induction false} OpenIsLast(m: Manager, x: nat, z: nat)
    requires Links(m) && x < |m.all| && z < |m.all| && Precedes(m, x, z) && !m.all[x].closed
    ensures z == x
    decreases z
  {
    if z != x {
      var q := m.all[z].pred.value;
      assert TookOver(m, z, q);
      OpenIsLast(m, x, q);
    }
  }

  lemma ResendStampsChain(states: seq<Manager>, steps: seq<ManagerStep>, k: nat, x: nat, f: Frame)
    requires IsManagerRun(states, steps) && k < |steps| && x < |states[k].all| && x < |states[k + 1].all|
    requires states[k + 1].all[x].queue.resends[f] > states[k].all[x].queue.resends[f]
    ensures steps[k].Timer? && steps[k].step.Retry?
    ensures ChainStamped(states[k + 1], x, f.serverSeq, steps[k].step.now)
  {
    assert ManagerStepAt(states, steps, k);
    ResendIsRetry(states[k], steps[k], x, f);
    RetryLeavesOpen(states[k], steps[k], x);
    assert Links(states[k + 1]) by {
      ManagerRun(states, steps, k + 1);
    }
    assert AllChainsSound(states[k + 1].all) by {
      ChainRun(states, steps, k + 1);
    }
    StampedNow(states[k + 1], x, f.serverSeq, steps[k].step.now);
  }

  lemma RetryLeavesOpen(m: Manager, step: ManagerStep, x: nat)
    requires ManagerEnabled(m, step) && step.Timer? && step.i == x && !m.all[x].closed
    ensures !ManagerApply(m, step).all[x].closed
  {
  }

  /** A number that an open session has just stamped. */
  lemma StampedNow(m: Manager, x: nat, n: nat, t: int)
    requires Links(m) && AllChainsSound(m.all) && x < |m.all| && !m.all[x].closed
    requires n in m.all[x].queue.sent && m.all[x].queue.sent[n].timestamp == t
    ensures ChainStamped(m, x, n, t)
  {
    assert ChainSound(m.all, x);
    KeptIsKnown(m.all, x, n);
    forall z: nat | z < |m.all| && Precedes(m, x, z) ensures StampedSince(m.all[z], n, t) {
      OpenIsLast(m, x, z);
    }
  }

  lemma KeptIsKnown(all: seq<Session>, i: nat, n: nat)
    requires i < |all| && ChainSound(all, i) && n in all[i].queue.sent
    ensures Known(all[i], n)
  {
    var v := Chain(all, i);
    assert v.sent == all[i].queue.sent;
    var p := PendingIndex(v, n);
    assert Known(all[i], v.firsts[p].msg.serverSeq);
  }

  /** Two retransmissions of one number along a chain, by one session or by two, are more than 15 seconds apart. */
  lemma ChainRetriesAreSpaced(
      states: seq<Manager>, steps: seq<ManagerStep>, k: nat, l: nat, x: nat, y: nat, n: nat)
    requires IsManagerRun(states, steps) && k < l < |steps|
    requires ResendsOn(states, steps, k, x, n) && ResendsOn(states, steps, l, y, n) && Precedes(states[l], x, y)
    ensures steps[k].Timer? && steps[k].step.Retry? && steps[l].Timer? && steps[l].step.Retry?
    ensures steps[l].step.now - steps[k].step.now > 15 * SECOND
  {
    var f: Frame :| f.serverSeq == n && states[k + 1].all[x].queue.resends[f] > states[k].all[x].queue.resends[f];
    var g: Frame :| g.serverSeq == n && states[l + 1].all[y].queue.resends[g] > states[l].all[y].queue.resends[g];
    ResendStampsChain(states, steps, k, x, f);
    StampsRun(states, steps, k + 1, l, x, n, steps[k].step.now);
    assert ManagerStepAt(states, steps, l);
    ResendIsRetry(states[l], steps[l], y, g);
    assert StampedSince(states[l].all[y], n, steps[k].step.now);
  }
}
