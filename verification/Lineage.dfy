/**
 What a session is given when it is created, who is registered, who is logged in, and which
 requests are let through.
 */
module Lineage {
  import opened Common
  import opened SessionSpec
  import opened Reconnect

  /** A session created without a predecessor starts from nothing. */
  lemma NewcomerStartsAfresh(m: Manager, openID: string, recent: bool, seen: Seen)
    requires Predecessor(m, openID, recent) == None
    ensures var t, i := Created(m, openID, recent, seen), |m.all|;
            var s := t.all[i];
            && |t.all| == i + 1 && t.all[..i] == m.all && t.sessions == m.sessions + {i}
            && s.openID == openID && s.status == Inited && s.zone == 0 && !s.closed && s.pred == None
            && s.serverSeq == 0 && s.clientAck == 0 && s.maxClientSeq == 0 && s.names == [] && s.admitted == []
            && s.queue.next == 1 && s.queue.sent == map[] && s.queue.waiting == multiset{} && s.queue.cap == 1000
  {
  }

  /**
   An heir has the counters of its predecessor, and the status, zone and acknowledgement that
   were read; the predecessor is closed and unregistered.
   */
  lemma HeirTakesAfter(m: Manager, openID: string, recent: bool, seen: Seen, p: nat)
    requires Predecessor(m, openID, recent) == Some(p)
    ensures var t, i := Created(m, openID, recent, seen), |m.all|;
            var s, former := t.all[i], m.all[p];
            && |t.all| == i + 1 && t.all[..i] == m.all[p := former.(closed := true)]
            && t.sessions == m.sessions - {p} + {i}
            && s.openID == openID && s.status == seen.status && s.zone == seen.zone && s.clientAck == seen.clientAck
            && !s.closed && s.pred == Some(p) && s.base == s.serverSeq
            && s.serverSeq == former.serverSeq && s.maxClientSeq == former.maxClientSeq
            && s.names == former.names && s.admitted == former.admitted
            && s.queue.next == seen.clientAck + 1 && s.queue.lastAcked == seen.clientAck
            && s.queue.sent == former.queue.sent && s.queue.waiting == multiset{} && s.queue.cap == 1000
  {
  }

  /**
   A connection takes over the session indexed under its user, if it names one, and that
   session was active lately and is registered; and it is indexed itself.
   */
  lemma TakesOverIff(m: Manager, openID: string, recent: bool, seen: Seen)
    requires forall i | i in m.sessions :: i < |m.all|
    ensures Predecessor(m, openID, recent).Some? <==>
              openID != "" && recent && openID in m.byUID && m.byUID[openID] in m.sessions
    ensures Predecessor(m, openID, recent).Some? ==> Predecessor(m, openID, recent).value == m.byUID[openID]
    ensures Created(m, openID, recent, seen).byUID == if openID == "" then m.byUID else m.byUID[openID := |m.all|]
  {
  }

  // ---------- Who is registered ----------

  /** `step` ends the registration of session `i`. */
  ghost predicate Unregisters(m: Manager, step: ManagerStep, i: nat) {
    if step.Create? then Predecessor(m, step.openID, step.recent) == Some(i)
    else (step.Remove? || step.Expire?) && step.i == i
  }

  lemma RegisteredStep(m: Manager, step: ManagerStep, i: nat)
    requires ManagerEnabled(m, step) && forall j | j in m.sessions :: j < |m.all|
    ensures i in ManagerApply(m, step).sessions <==>
              (i in m.sessions || (step.Create? && i == |m.all|)) && !Unregisters(m, step, i)
    ensures |ManagerApply(m, step).all| == |m.all| + if step.Create? then 1 else 0
  {
  }

  /** A session is registered from its creation until it is removed, expires, or is taken over. */
  lemma {:induction false} RegisteredIff(states: seq<Manager>, steps: seq<ManagerStep>, k: nat, i: nat)
    requires IsManagerRun(states, steps) && k < |states|
    ensures i in states[k].sessions <==>
              i < |states[k].all| && forall j | 0 <= j < k :: !Unregisters(states[j], steps[j], i)
  {
    if k > 0 {
      RegisteredIff(states, steps, k - 1, i);
      ManagerRun(states, steps, k - 1);
      assert ManagerStepAt(states, steps, k - 1);
      RegisteredStep(states[k - 1], steps[k - 1], i);
      if i == |states[k - 1].all| {
        NotUnregisteredBefore(states, steps, k, i);
      }
    }
  }

  lemma NotUnregisteredBefore(states: seq<Manager>, steps: seq<ManagerStep>, k: nat, i: nat)
    requires IsManagerRun(states, steps) && 0 < k < |states| && i == |states[k - 1].all|
    ensures forall j | 0 <= j < k :: !Unregisters(states[j], steps[j], i)
  {
    forall j | 0 <= j < k ensures !Unregisters(states[j], steps[j], i) {
      Grows(states, steps, j, k - 1);
      assert ManagerStepAt(states, steps, j);
      ManagerRun(states, steps, j);
    }
  }

  lemma {:induction false} Grows(states: seq<Manager>, steps: seq<ManagerStep>, j: nat, k: nat)
    requires IsManagerRun(states, steps) && j <= k < |states|
    ensures |states[j].all| <= |states[k].all|
    ensures forall i: nat | i < |states[j].all| :: states[k].all[i].pred == states[j].all[i].pred
    decreases k
  {
    if j < k {
      Grows(states, steps, j, k - 1);
      assert ManagerStepAt(states, steps, k - 1);
      PredsStayInStep(states[k - 1], steps[k - 1]);
    }
  }

  lemma PredsStayInStep(m: Manager, step: ManagerStep)
    requires ManagerEnabled(m, step)
    ensures |m.all| <= |ManagerApply(m, step).all|
    ensures forall j: nat | j < |m.all| :: ManagerApply(m, step).all[j].pred == m.all[j].pred
  {
    if !step.Create? {
      SessionEvolves(m.all[step.i], step.i in m.sessions, step);
    }
  }

  /** Only expiry stops a queue, and only that of a session not yet closed: removal and take-over leave it running. */
  lemma StopsIff(s: Session, live: bool, step: ManagerStep)
    requires SessionEnabled(s, step) && !s.queue.stopped
    ensures SessionAfter(s, live, step).queue.stopped <==> step.Expire? && live && !s.closed
    ensures SessionAfter(s, live, step).closed <==>
              s.closed || (live && (step.Close? || step.Remove? || step.Expire?))
  {
  }

  // ---------- Who is logged in ----------

  /** In step `j` session `p` is activated. */
  ghost predicate Activated(m: Manager, step: ManagerStep, p: nat) {
    step.Activate? && step.i == p && p in m.sessions && p < |m.all| && m.all[p].status == Inited
  }

  /** Take-overs read their predecessor as they close it. */
  ghost predicate ReadsAtOnce(m: Manager, step: ManagerStep) {
    step.Create? && Predecessor(m, step.openID, step.recent).Some? ==>
      step.seen == SeenOf(m.all[Predecessor(m, step.openID, step.recent).value])
  }

  /** What a step makes of status and zone. */
  lemma StatusStep(m: Manager, step: ManagerStep, i: nat)
    requires ManagerEnabled(m, step) && i < |m.all|
    ensures i < |ManagerApply(m, step).all|
    ensures var s, t := m.all[i], ManagerApply(m, step).all[i];
            if Activated(m, step, i) then t.status == Normal && t.zone == step.zone
            else t.status == s.status && t.zone == s.zone
  {
  }

  /** A session that is registered has no heirs. */
  lemma {:induction false} NoHeirs(m: Manager, p: nat, i: nat)
    requires Links(m) && p in m.sessions && i < |m.all| && Precedes(m, p, i)
    ensures p == i
    decreases i
  {
    if p != i {
      var q := m.all[i].pred.value;
      assert TookOver(m, i, q);
      NoHeirs(m, p, q);
    }
  }

  /** The activation in step `j` is one of session `i`, or of one before it in its chain. */
  ghost predicate LogsIn(states: seq<Manager>, steps: seq<ManagerStep>, k: nat, i: nat, j: int)
    requires k < |states| && |states| == |steps| + 1 && i < |states[k].all|
  {
    0 <= j < k && steps[j].Activate? && Activated(states[j], steps[j], steps[j].i) && Precedes(states[k], steps[j].i, i)
  }

  lemma {:induction false} PrecedesStays(m: Manager, t: Manager, p: nat, i: nat)
    requires i < |m.all| <= |t.all| && forall j: nat | j < |m.all| :: t.all[j].pred == m.all[j].pred
    ensures Precedes(t, p, i) <==> Precedes(m, p, i)
    decreases i
  {
    var pred := m.all[i].pred;
    if pred.Some? && pred.value < i {
      PrecedesStays(m, t, p, pred.value);
    }
  }

  /** What the activations up to `k` say of session `i`. */
  ghost predicate StatusExplained(states: seq<Manager>, steps: seq<ManagerStep>, k: nat, i: nat)
    requires k < |states| && |states| == |steps| + 1 && i < |states[k].all|
  {
    var s := states[k].all[i];
    && (s.status == Normal <==> exists j :: LogsIn(states, steps, k, i, j))
    && (forall j | LogsIn(states, steps, k, i, j) :: s.zone == steps[j].zone)
  }

  lemma LogsInStays(states: seq<Manager>, steps: seq<ManagerStep>, k: nat, i: nat, j: int)
    requires IsManagerRun(states, steps) && 0 < k < |states| && i < |states[k - 1].all| <= |states[k].all|
    requires j != k - 1
    ensures LogsIn(states, steps, k, i, j) <==> LogsIn(states, steps, k - 1, i, j)
  {
    assert ManagerStepAt(states, steps, k - 1);
    PredsStayInStep(states[k - 1], steps[k - 1]);
    if 0 <= j < k && steps[j].Activate? {
      PrecedesStays(states[k - 1], states[k], steps[j].i, i);
    }
  }

  lemma LogsInNow(states: seq<Manager>, steps: seq<ManagerStep>, k: nat, i: nat)
    requires IsManagerRun(states, steps) && 0 < k < |states| && i < |states[k - 1].all| <= |states[k].all|
    ensures LogsIn(states, steps, k, i, k - 1) <==> Activated(states[k - 1], steps[k - 1], i)
  {
    var m, step := states[k - 1], steps[k - 1];
    assert ManagerStepAt(states, steps, k - 1);
    ManagerRun(states, steps, k - 1);
    PredsStayInStep(m, step);
    if step.Activate? && Activated(m, step, step.i) {
      PrecedesStays(m, states[k], step.i, i);
      if Precedes(m, step.i, i) {
        NoHeirs(m, step.i, i);
      }
    }
  }

  /** A session that was there before the step. */
  lemma OldStatus(states: seq<Manager>, steps: seq<ManagerStep>, k: nat, i: nat)
    requires IsManagerRun(states, steps) && 0 < k < |states| && i < |states[k - 1].all| <= |states[k].all|
    requires StatusExplained(states, steps, k - 1, i)
    ensures StatusExplained(states, steps, k, i)
  {
    var m, step := states[k - 1], steps[k - 1];
    assert ManagerStepAt(states, steps, k - 1);
    StatusStep(m, step, i);
    LogsInNow(states, steps, k, i);
    forall j | j != k - 1 ensures LogsIn(states, steps, k, i, j) <==> LogsIn(states, steps, k - 1, i, j) {
      LogsInStays(states, steps, k, i, j);
    }
    if states[k].all[i].status == Normal && !Activated(m, step, i) {
      var j :| LogsIn(states, steps, k - 1, i, j);
      assert LogsIn(states, steps, k, i, j);
    }
  }

  /** An activation is of a session that was there. */
  lemma ActivatedEarlier(states: seq<Manager>, steps: seq<ManagerStep>, j: nat, k: nat)
    requires IsManagerRun(states, steps) && j <= k < |steps| && steps[j].Activate?
    requires Activated(states[j], steps[j], steps[j].i)
    ensures steps[j].i < |states[k].all|
  {
    Grows(states, steps, j, k);
  }

  /** A session that the step creates with a predecessor is logged in as that is. */
  lemma HeirLogsIn(states: seq<Manager>, steps: seq<ManagerStep>, k: nat, p: nat, j: int)
    requires IsManagerRun(states, steps) && 0 < k < |states| && steps[k - 1].Create?
    requires Predecessor(states[k - 1], steps[k - 1].openID, steps[k - 1].recent) == Some(p)
    requires |states[k].all| == |states[k - 1].all| + 1
    ensures LogsIn(states, steps, k, |states[k - 1].all|, j) <==> LogsIn(states, steps, k - 1, p, j)
  {
    var m, step := states[k - 1], steps[k - 1];
    assert ManagerStepAt(states, steps, k - 1);
    PredsStayInStep(m, step);
    HeirTakesAfter(m, step.openID, step.recent, step.seen, p);
    if 0 <= j < k && steps[j].Activate? && Activated(states[j], steps[j], steps[j].i) {
      ActivatedEarlier(states, steps, j, k - 1);
      PrecedesStays(m, states[k], steps[j].i, p);
    }
  }

  lemma NewcomerIsNotLoggedIn(states: seq<Manager>, steps: seq<ManagerStep>, k: nat, j: int)
    requires IsManagerRun(states, steps) && 0 < k < |states| && steps[k - 1].Create?
    requires Predecessor(states[k - 1], steps[k - 1].openID, steps[k - 1].recent) == None
    requires |states[k].all| == |states[k - 1].all| + 1
    ensures !LogsIn(states, steps, k, |states[k - 1].all|, j)
  {
    var m, step := states[k - 1], steps[k - 1];
    assert ManagerStepAt(states, steps, k - 1);
    NewcomerStartsAfresh(m, step.openID, step.recent, step.seen);
    if 0 <= j < k && steps[j].Activate? && Activated(states[j], steps[j], steps[j].i) {
      ActivatedEarlier(states, steps, j, k - 1);
    }
  }

  lemma NewStatus(states: seq<Manager>, steps: seq<ManagerStep>, k: nat)
    requires IsManagerRun(states, steps) && 0 < k < |states| && steps[k - 1].Create?
    requires ReadsAtOnce(states[k - 1], steps[k - 1])
    requires |states[k].all| == |states[k - 1].all| + 1
    requires match Predecessor(states[k - 1], steps[k - 1].openID, steps[k - 1].recent)
             case None => true
             case Some(p) => StatusExplained(states, steps, k - 1, p)
    ensures StatusExplained(states, steps, k, |states[k - 1].all|)
  {
    var m, step, i := states[k - 1], steps[k - 1], |states[k - 1].all|;
    assert ManagerStepAt(states, steps, k - 1);
    match Predecessor(m, step.openID, step.recent)
    case None =>
      NewcomerStartsAfresh(m, step.openID, step.recent, step.seen);
      forall j ensures !LogsIn(states, steps, k, i, j) {
        NewcomerIsNotLoggedIn(states, steps, k, j);
      }
    case Some(p) =>
      HeirTakesAfter(m, step.openID, step.recent, step.seen, p);
      forall j ensures LogsIn(states, steps, k, i, j) <==> LogsIn(states, steps, k - 1, p, j) {
        HeirLogsIn(states, steps, k, p, j);
      }
      if m.all[p].status == Normal {
        var j :| LogsIn(states, steps, k - 1, p, j);
        assert LogsIn(states, steps, k, i, j);
      }
  }

  lemma {:induction false} StatusRun(states: seq<Manager>, steps: seq<ManagerStep>, k: nat, i: nat)
    requires IsManagerRun(states, steps) && k < |states| && i < |states[k].all|
    requires forall j | 0 <= j < k :: ReadsAtOnce(states[j], steps[j])
    ensures StatusExplained(states, steps, k, i)
    decreases k
  {
    if k > 0 {
      assert ManagerStepAt(states, steps, k - 1);
      PredsStayInStep(states[k - 1], steps[k - 1]);
      if i < |states[k - 1].all| {
        StatusRun(states, steps, k - 1, i);
        OldStatus(states, steps, k, i);
      } else {
        var pred := Predecessor(states[k - 1], steps[k - 1].openID, steps[k - 1].recent);
        if pred.Some? {
          StatusRun(states, steps, k - 1, pred.value);
        }
        NewStatus(states, steps, k);
      }
    }
  }

  /**
   A session is logged in exactly if it, or one before it in its chain, has been activated,
   and then it has the zone of that activation: a reconnect keeps the client logged in,
   and nothing but an activation logs it in.
   */
  lemma LoggedInIff(states: seq<Manager>, steps: seq<ManagerStep>, k: nat, i: nat)
    requires IsManagerRun(states, steps) && k < |states| && i < |states[k].all|
    requires forall j | 0 <= j < k :: ReadsAtOnce(states[j], steps[j])
    ensures states[k].all[i].status == Normal <==> exists j :: LogsIn(states, steps, k, i, j)
    ensures forall j | LogsIn(states, steps, k, i, j) :: states[k].all[i].zone == steps[j].zone
  {
    StatusRun(states, steps, k, i);
  }

  // ---------- Which requests are let through ----------

  /**
   A request of a registered session is let through if none with a nonzero number was before,
   or if it is the one after the last; and no other.
   */
  lemma LetThroughIff(states: seq<Manager>, steps: seq<ManagerStep>, k: nat)
    requires IsManagerRun(states, steps) && k < |steps| && steps[k].Request? && steps[k].i in states[k].sessions
    ensures steps[k].i < |states[k].all| == |states[k + 1].all|
    ensures var log, r := states[k].all[steps[k].i].admitted, steps[k].clientSeq;
            var after := states[k + 1].all[steps[k].i].admitted;
            after == if log == [] || log[|log| - 1] == 0 || r == log[|log| - 1] + 1 then log + [r] else log
  {
    AdmissionRun(states, steps, k);
    ManagerRun(states, steps, k);
    assert ManagerStepAt(states, steps, k) && Admission(states[k].all[steps[k].i]);
  }

  // ---------- Acknowledgements and the next heir ----------

  /**
   An acknowledgement that reaches a registered session is what its next heir starts from,
   even if it is lower than an earlier one.
   */
  lemma AckReachesHeir(s: Session, a: nat, id: nat, openID: string)
    ensures var heir := Inherited(AfterClientAck(s, a), id, openID);
            && heir.clientAck == a && heir.queue.next == a + 1 && heir.queue.lastAcked == a
            && heir.queue.sent == map k | k in s.queue.sent && k > a :: s.queue.sent[k]
  {
  }

  /** What an acknowledgement of `a` makes of a session, if its manager knows it and if not. */
  lemma AckReports(s: Session, live: bool, a: nat)
    ensures var t := AfterAckMessage(s, live, a);
            && t.clientAck == (if live then a else s.clientAck)
            && t.queue.next == Max(s.queue.next, a + 1) && t.queue.lastAcked == Max(s.queue.lastAcked, a)
            && t.queue.sent == (map k | k in s.queue.sent && k > a :: s.queue.sent[k])
            && t.serverSeq == s.serverSeq && t.queue.firsts == s.queue.firsts
  {
  }

  /** A START that reports nothing changes nothing before its answer; one that reports something acknowledges it. */
  lemma StartReports(s: Session, live: bool, a: nat)
    ensures AfterStart(s, live, 0) == s
    ensures a > 0 ==> AfterStart(s, live, a) == AfterAckMessage(s, live, a)
  {
  }

  // ---------- The user index ----------

  /**
   A session that names its user is indexed under it, unless another session is; and a
   removed one's name is dropped, whoever holds it.
   */
  lemma BindsIff(m: Manager, i: nat, openID: string)
    requires i < |m.all| && openID != ""
    ensures var t := ManagerApply(m, Bind(i, openID));
            && t.all[i].openID == openID
            && t.byUID == if openID in m.byUID && m.byUID[openID] != i then m.byUID else m.byUID[openID := i]
    ensures i in m.sessions ==> ManagerApply(m, Remove(i)).byUID == m.byUID - {m.all[i].openID}
  {
  }
}
