/**
 A take-over in two moments: the heir reads the predecessor's counters, and some time later
 the predecessor is closed and its sent messages are copied. In between, the predecessor's
 connection, its workers and its timer may go on.
 */
module TakeOver {
  import opened Common
  import opened QueueSpec
  import opened QueueHistory
  import opened SessionSpec
  import opened Sending
  import opened Reconnect

  /** The heir that has read `before`, and copied the sent messages of `after`. */
  ghost function SplitHeir(before: Session, after: Session, id: nat, openID: string): Session {
    Succeeding(before, id, openID).(
      queue := AfterResync(Init(QUEUE_SIZE), before.clientAck).(sent := after.queue.sent))
  }

  /** In `step` session `p` takes a number, or admits a request. */
  ghost predicate Takes(m: Manager, step: ManagerStep, p: nat) {
    && !step.Create? && step.i == p < |m.all|
    && (step.Alloc? || (step.Request? && p in m.sessions && Admits(m.all[p].maxClientSeq, step.clientSeq)))
  }

  ghost predicate QuietBetween(states: seq<Manager>, steps: seq<ManagerStep>, k: nat, l: nat, p: nat)
    requires k <= l <= |steps| < |states|
  {
    forall j | k <= j < l :: !Takes(states[j], steps[j], p)
  }

  /** What a take-over has to find as it read it. */
  ghost predicate SameCounts(s: Session, t: Session) {
    t.names == s.names && t.serverSeq == s.serverSeq && t.admitted == s.admitted && t.maxClientSeq == s.maxClientSeq
  }

  function Count(s: Session): nat {
    |s.names| + |s.admitted|
  }

  /** A step moves the counters of `p` exactly if it takes a number or admits a request. */
  lemma CountsStep(m: Manager, step: ManagerStep, p: nat)
    requires ManagerEnabled(m, step) && p < |m.all|
    ensures p < |ManagerApply(m, step).all|
    ensures var s, t := m.all[p], ManagerApply(m, step).all[p];
            if Takes(m, step, p) then Count(t) > Count(s) else SameCounts(s, t)
  {
    if !step.Create? && step.i == p {
      SessionCounts(m.all[p], p in m.sessions, step);
    }
  }

  lemma SessionCounts(s: Session, live: bool, step: ManagerStep)
    requires SessionEnabled(s, step) && !step.Create?
    ensures var t := SessionAfter(s, live, step);
            if step.Alloc? || (step.Request? && live && Admits(s.maxClientSeq, step.clientSeq))
            then Count(t) > Count(s) else SameCounts(s, t)
  {
  }

  lemma {:induction false} CountsRun(states: seq<Manager>, steps: seq<ManagerStep>, k: nat, l: nat, p: nat)
    requires IsManagerRun(states, steps) && k <= l < |states| && p < |states[k].all|
    ensures p < |states[l].all|
    ensures var s, t := states[k].all[p], states[l].all[p];
            if QuietBetween(states, steps, k, l, p) then SameCounts(s, t) else Count(t) > Count(s)
    decreases l
  {
    if k < l {
      CountsRun(states, steps, k, l - 1, p);
      assert ManagerStepAt(states, steps, l - 1);
      CountsStep(states[l - 1], steps[l - 1], p);
      assert QuietBetween(states, steps, k, l, p) <==>
             QuietBetween(states, steps, k, l - 1, p) && !Takes(states[l - 1], steps[l - 1], p);
    }
  }

  /**
   A take-over read at `k` and closed at `l` is the take-over of one step, with a zone, a
   status and an acknowledgement from before, exactly if the predecessor took no number
   and admitted no request in between; whatever else it did does not matter.
   */
  lemma SplitIsOneStepIff(
      states: seq<Manager>, steps: seq<ManagerStep>, k: nat, l: nat, p: nat, openID: string)
    requires IsManagerRun(states, steps) && k <= l < |states| && p < |states[k].all|
    ensures p < |states[l].all|
    ensures var before, after := states[k].all[p], states[l].all[p];
            (exists seen :: SplitHeir(before, after, p, openID) == InheritedAs(after, p, openID, seen))
            <==> QuietBetween(states, steps, k, l, p)
  {
    CountsRun(states, steps, k, l, p);
    HeirsAgreeIff(states[k].all[p], states[l].all[p], p, openID);
  }

  lemma HeirsAgreeIff(before: Session, after: Session, id: nat, openID: string)
    ensures SameCounts(before, after) ==>
              SplitHeir(before, after, id, openID) == InheritedAs(after, id, openID, SeenOf(before))
    ensures (exists seen :: SplitHeir(before, after, id, openID) == InheritedAs(after, id, openID, seen)) ==>
              SameCounts(before, after)
  {
  }

  /**
   So such a take-over is a step that the runs of `Reconnect` contain, if the predecessor is
   still registered when it is closed.
   */
  lemma SplitIsACreateStep(
      states: seq<Manager>, steps: seq<ManagerStep>, k: nat, l: nat, p: nat, openID: string, recent: bool)
    requires IsManagerRun(states, steps) && k <= l < |states| && p < |states[k].all|
    requires QuietBetween(states, steps, k, l, p) && Predecessor(states[l], openID, recent) == Some(p)
    ensures var m, seen := states[l], SeenOf(states[k].all[p]);
            Created(m, openID, recent, seen).all ==
              m.all[p := m.all[p].(closed := true)] + [SplitHeir(states[k].all[p], m.all[p], p, openID)]
  {
    CountsRun(states, steps, k, l, p);
    HeirsAgreeIff(states[k].all[p], states[l].all[p], p, openID);
  }

  // ---------- What goes wrong otherwise ----------

  /** All that a session has put on the wire is numbered within `counter`. */
  ghost predicate WireWithin(q: Queue, counter: nat) {
    forall f | OnWire(q, f) :: f.serverSeq <= counter
  }

  /**
   If the predecessor takes no number in between, its wire stays within the counter that was
   read, whatever is pushed, retried or acknowledged.
   */
  lemma QuietWireStaysWithin(states: seq<Manager>, steps: seq<ManagerStep>, k: nat, l: nat, p: nat)
    requires IsManagerRun(states, steps) && k <= l < |states| && p < |states[k].all|
    requires QuietBetween(states, steps, k, l, p)
    ensures p < |states[l].all|
    ensures WireWithin(states[l].all[p].queue, states[k].all[p].serverSeq)
  {
    ManagerRun(states, steps, l);
    CountsRun(states, steps, k, l, p);
    assert Sound(states[l].all[p]);
    forall f | OnWire(states[l].all[p].queue, f) ensures f.serverSeq <= states[k].all[p].serverSeq {
      WireIsNamed(states[l].all[p], f);
    }
  }

  /** A caught-up predecessor over a working link stays within that counter exactly if it pushes nothing. */
  lemma LatePushesIff(trail: seq<Session>, plan: seq<Bytes>, w: World)
    requires Trail(trail, plan, w, true) && Works(w) && CaughtUp(trail[0]) && Sound(trail[0])
    ensures WireWithin(trail[|plan|].queue, trail[0].serverSeq) <==> plan == []
  {
    var former, last := trail[0], trail[|plan|];
    CaughtUpTrail(trail, plan, w, true, |plan|);
    if plan == [] {
      forall f | OnWire(last.queue, f) ensures f.serverSeq <= former.serverSeq {
        WireIsNamed(former, f);
      }
    } else {
      var p := |former.queue.firsts|;
      assert last.queue.firsts[p] == Direct(plan[0], w, former.serverSeq + 1);
      assert FirstFrame(last.queue, p).serverSeq == former.serverSeq + 1;
      assert SentBefore(last.queue, FirstFrame(last.queue, p));
      assert OnWire(last.queue, FirstFrame(last.queue, p));
    }
  }

  lemma HeirIsCaughtUp(former: Session, id: nat, openID: string)
    requires former.clientAck == former.serverSeq
    ensures CaughtUp(Inherited(former, id, openID)) && Inherited(former, id, openID).queue.firsts == []
    ensures Inherited(former, id, openID).serverSeq == former.serverSeq
  {
  }

  /** A late push and the heir's first one go out under the same number. */
  lemma LatePushSharesNumber(
      former: Session, id: nat, openID: string, late: Bytes, data: Bytes, w: World, ok: bool, ok': bool,
      t: Session, u: Session)
    requires CaughtUp(former) && former.clientAck == former.serverSeq && Works(w)
    requires OnePush(former, late, w, ok, t) && OnePush(Inherited(former, id, openID), data, w, ok', u)
    ensures var n := former.serverSeq + 1;
            t.queue.firsts == former.queue.firsts + [Direct(late, w, n)] && u.queue.firsts == [Direct(data, w, n)]
  {
    CaughtUpSends(former, late, w, ok, t);
    HeirIsCaughtUp(former, id, openID);
    CaughtUpSends(Inherited(former, id, openID), data, w, ok', u);
  }

  /**
   Two take-overs that read the same predecessor, which need not push anything: the first
   pushes of both heirs share a number.
   */
  lemma TwoHeirsShareNumber(
      former: Session, id: nat, openID: string, data: Bytes, data': Bytes, w: World, ok: bool, ok': bool,
      t: Session, u: Session)
    requires former.clientAck == former.serverSeq && Works(w)
    requires OnePush(Inherited(former, id, openID), data, w, ok, t)
    requires OnePush(Inherited(former, id, openID), data', w, ok', u)
    ensures var n := former.serverSeq + 1;
            t.queue.firsts == [Direct(data, w, n)] && u.queue.firsts == [Direct(data', w, n)]
  {
    HeirIsCaughtUp(former, id, openID);
    CaughtUpSends(Inherited(former, id, openID), data, w, ok, t);
    CaughtUpSends(Inherited(former, id, openID), data', w, ok', u);
  }

  /** A request that the predecessor admits late is admitted by the heir once more. */
  lemma LateRequestAdmittedTwice(former: Session, id: nat, openID: string, r: nat)
    requires Admits(former.maxClientSeq, r)
    ensures AfterRequest(former, r).admitted == former.admitted + [r]
    ensures AfterRequest(Inherited(former, id, openID), r).admitted == former.admitted + [r]
  {
  }
}
