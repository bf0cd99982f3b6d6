/**
 A session on which nothing goes wrong: messages encode, the link works, there is room,
 no resync skips a number and nothing parked expires. Once every number that was taken has
 been put, the wire shows the numbers in order, each with the payload it was taken for.
 */
module Quiescence {
  import opened Common
  import opened QueueSpec
  import opened Reordering
  import opened Workers
  import N = NotifySpec

  /** What a step of the system does to the queue. */
  ghost function OnTheQueue(s: System, step: SystemStep): Option<Step>
    requires SystemEnabled(s, step)
  {
    match step
    case Put(w, encoded, now, link, burst) =>
      var n := s.workers[w].n;
      if encoded then Some(Enqueue(n, s.names[n - 1].data, now, link, burst)) else None
    case OtherPut(n, now, link, burst) => Some(Enqueue(n, s.names[n - 1].data, now, link, burst))
    case OnQueue(inner) => Some(inner)
    case _ => None
  }

  /** What has been put, once `step` has been taken. */
  ghost function WithPut(d: Offered, s: System, step: SystemStep): Offered
    requires SystemEnabled(s, step)
  {
    match OnTheQueue(s, step)
    case None => d
    case Some(inner) => WithOffer(d, inner)
  }

  ghost predicate RoomAndLink(q: Queue, link: nat -> bool) {
    Always(link) && |q.waiting| < q.cap
  }

  /** Nothing goes wrong in `step`. That a worker puts a number only once need not be asked. */
  ghost predicate Smooth(s: System, d: Offered, step: SystemStep) {
    match step
    case Put(_, encoded, _, link, _) => encoded && RoomAndLink(s.queue, link)
    case OtherPut(n, _, link, _) => n !in d && RoomAndLink(s.queue, link)
    case OnQueue(inner) => Harmless(s.queue, d, inner)
    case _ => true
  }

  // ---------- What has been put ----------

  ghost predicate InFlight(workers: map<nat, Worker>, n: nat) {
    exists w :: Holds(workers, w, n)
  }

  ghost predicate Holds(workers: map<nat, Worker>, w: nat, n: nat) {
    w in workers && workers[w].Putting? && workers[w].n == n
  }

  /** The numbers that workers have taken are in the queue's hands, or in a worker's, and not in both. */
  ghost predicate Delivered(names: seq<Origin>, d: Offered, workers: map<nat, Worker>) {
    && (forall n | n in d :: 1 <= n <= |names| && d[n] == names[n - 1].data)
    && (forall a: nat | a < |names| && names[a].FromTask? :: a + 1 in d || InFlight(workers, a + 1))
    && (forall w | w in workers && workers[w].Putting? :: workers[w].n !in d)
  }

  ghost predicate DeliveredAfter(s: System, d: Offered, step: SystemStep)
    requires SystemEnabled(s, step)
  {
    var t := SystemApply(s, step);
    Delivered(t.names, WithPut(d, s, step), t.workers)
  }

  /** A worker that holds no number before or after its step. */
  lemma NoHandsChange(names: seq<Origin>, d: Offered, workers: map<nat, Worker>, w: nat, x: Worker)
    requires Delivered(names, d, workers) && w in workers && !workers[w].Putting? && !x.Putting?
    ensures Delivered(names, d, workers[w := x])
  {
    var after := workers[w := x];
    forall n: nat | InFlight(workers, n) ensures InFlight(after, n) {
      var v :| Holds(workers, v, n);
      assert Holds(after, v, n);
    }
  }

  lemma TakeDelivers(names: seq<Origin>, d: Offered, workers: map<nat, Worker>, w: nat, job: Job, o: Origin)
    requires Delivered(names, d, workers) && w in workers && !workers[w].Putting?
    ensures Delivered(names + [o], d, workers[w := Putting(job, |names| + 1)])
  {
    var after, longer := workers[w := Putting(job, |names| + 1)], names + [o];
    assert Holds(after, w, |names| + 1);
    forall a: nat | a < |longer| && longer[a].FromTask? ensures a + 1 in d || InFlight(after, a + 1) {
      if a < |names| && a + 1 !in d {
        assert names[a] == longer[a] && InFlight(workers, a + 1);
        var v :| Holds(workers, v, a + 1);
        assert Holds(after, v, a + 1);
      }
    }
  }

  lemma OtherTakeDelivers(names: seq<Origin>, d: Offered, workers: map<nat, Worker>, data: Bytes)
    requires Delivered(names, d, workers)
    ensures Delivered(names + [Elsewhere(data)], d, workers)
  {
  }

  /** Nobody but `w` holds `n`. */
  ghost predicate HeldOnlyBy(workers: map<nat, Worker>, w: Option<nat>, n: nat) {
    forall v | v in workers && workers[v].Putting? && w != Some(v) :: workers[v].n != n
  }

  /** Two workers never hold one number, and none holds a number taken elsewhere. */
  lemma OneHolder(s: System, w: nat)
    requires Disciplined(s) && w in s.workers && s.workers[w].Putting?
    ensures HeldOnlyBy(s.workers, Some(w), s.workers[w].n)
  {
    forall v | v in s.workers && s.workers[v].Putting? && v != w ensures s.workers[v].n != s.workers[w].n {
      assert InStep(s.names, s.lists, s.workers[w]) && InStep(s.names, s.lists, s.workers[v]);
      assert TaskOf(s.workers[w]).Some? && TaskOf(s.workers[v]).Some?;
    }
  }

  lemma NoHolder(s: System, n: nat)
    requires Disciplined(s) && 1 <= n <= |s.names| && s.names[n - 1].Elsewhere?
    ensures HeldOnlyBy(s.workers, None, n)
  {
    forall w | w in s.workers && s.workers[w].Putting? ensures s.workers[w].n != n {
      assert InStep(s.names, s.lists, s.workers[w]);
    }
  }

  lemma PutDelivers(names: seq<Origin>, d: Offered, workers: map<nat, Worker>, w: nat, x: Worker)
    requires Delivered(names, d, workers)
    requires w in workers && workers[w].Putting? && 1 <= workers[w].n <= |names| && !x.Putting?
    requires HeldOnlyBy(workers, Some(w), workers[w].n)
    ensures Delivered(names, d[workers[w].n := names[workers[w].n - 1].data], workers[w := x])
  {
    var n, after := workers[w].n, workers[w := x];
    var e := d[n := names[n - 1].data];
    forall a: nat | a < |names| && names[a].FromTask? ensures a + 1 in e || InFlight(after, a + 1) {
      if a + 1 !in e {
        var v :| Holds(workers, v, a + 1);
        assert Holds(after, v, a + 1);
      }
    }
  }

  lemma OtherPutDelivers(names: seq<Origin>, d: Offered, workers: map<nat, Worker>, n: nat)
    requires Delivered(names, d, workers) && 1 <= n <= |names| && HeldOnlyBy(workers, None, n)
    ensures Delivered(names, d[n := names[n - 1].data], workers)
  {
  }

  // ---------- The run ----------

  ghost predicate RunsSmoothly(s: System, d: Offered) {
    Reorders(s.queue, d) && Delivered(s.names, d, s.workers)
  }

  lemma SmoothIsHarmless(s: System, d: Offered, step: SystemStep)
    requires SystemEnabled(s, step) && Smooth(s, d, step) && Delivered(s.names, d, s.workers)
    ensures OnTheQueue(s, step).Some? ==>
              Enabled(s.queue, OnTheQueue(s, step).value) && Harmless(s.queue, d, OnTheQueue(s, step).value)
  {
  }

  /** The part of the worker's step that follows the enqueue leaves queue and names alone. */
  lemma QueueMoves(s: System, d: Offered, step: SystemStep)
    requires SystemEnabled(s, step) && Smooth(s, d, step)
    ensures SystemApply(s, step).queue ==
            match OnTheQueue(s, step) case None => s.queue case Some(inner) => Apply(s.queue, inner)
  {
    match step
    case Put(w, _, now, link, burst) =>
      var job, n := s.workers[w].job, s.workers[w].n;
      SettledEffect(Enqueued(s, n, now, link, burst), w, job, EnqueueOutcome(s.queue, n, link) == Accepted);
    case OtherPut(_, _, _, _) =>
    case OnQueue(_) =>
    case Alloc(_) =>
    case OtherAlloc(_) =>
    case _ => QuietSteps(s, step);
  }

  /** A put that is accepted leaves the worker with the next message of its program. */
  lemma PutGoesOn(s: System, step: SystemStep)
    requires SystemEnabled(s, step) && step.Put? && step.encoded
    requires EnqueueOutcome(s.queue, s.workers[step.w].n, step.link) == Accepted
    ensures var t, job := SystemApply(s, step), s.workers[step.w].job;
            t.names == s.names && t.workers == s.workers[step.w := Sending(job.(place := Next(job.place)))]
  {
  }

  lemma PutIsEntered(s: System, d: Offered, step: SystemStep, n: nat)
    requires SystemEnabled(s, step) && step.Put? && step.encoded && n == s.workers[step.w].n
    ensures 1 <= n <= |s.names| && WithPut(d, s, step) == d[n := s.names[n - 1].data]
  {
  }

  lemma DeliveredLooksAt(s: System, d: Offered, step: SystemStep, e: Offered, workers: map<nat, Worker>)
    requires SystemEnabled(s, step) && Delivered(s.names, e, workers) && WithPut(d, s, step) == e
    requires SystemApply(s, step).names == s.names && SystemApply(s, step).workers == workers
    ensures DeliveredAfter(s, d, step)
  {
  }

  lemma SmoothPutDelivers(s: System, d: Offered, step: SystemStep, n: nat, x: Worker)
    requires SystemEnabled(s, step) && step.Put? && s.workers[step.w].n == n && !x.Putting?
    requires Delivered(s.names, d, s.workers) && HeldOnlyBy(s.workers, Some(step.w), n)
    requires 1 <= n <= |s.names| && WithPut(d, s, step) == d[n := s.names[n - 1].data]
    requires SystemApply(s, step).names == s.names && SystemApply(s, step).workers == s.workers[step.w := x]
    ensures DeliveredAfter(s, d, step)
  {
    PutDelivers(s.names, d, s.workers, step.w, x);
    DeliveredLooksAt(s, d, step, d[n := s.names[n - 1].data], s.workers[step.w := x]);
  }

  /** Steps that neither take nor put a number. */
  lemma QuietDelivers(s: System, d: Offered, step: SystemStep)
    requires SystemEnabled(s, step) && Delivered(s.names, d, s.workers)
    requires Quiet(step)
    ensures DeliveredAfter(s, d, step)
  {
    if step.Submit? || step.OnNotifies? {
      QuietSteps(s, step);
    } else {
      OneWorkerMoves(s, step);
      NoHandsChange(s.names, d, s.workers, step.w, SystemApply(s, step).workers[step.w]);
    }
  }

  lemma AllocDelivers(s: System, d: Offered, step: SystemStep)
    requires SystemEnabled(s, step) && Delivered(s.names, d, s.workers) && step.Alloc?
    ensures DeliveredAfter(s, d, step)
  {
    var job := s.workers[step.w].job;
    TakeDelivers(s.names, d, s.workers, step.w, job, FromTask(job.task, job.place, Items(s, job)[job.place.index]));
  }

  lemma OtherPutEffect(s: System, d: Offered, step: SystemStep)
    requires SystemEnabled(s, step) && step.OtherPut?
    ensures 1 <= step.n <= |s.names| && WithPut(d, s, step) == d[step.n := s.names[step.n - 1].data]
    ensures SystemApply(s, step).names == s.names && SystemApply(s, step).workers == s.workers
  {
  }

  lemma OtherPutStepDelivers(s: System, d: Offered, step: SystemStep)
    requires SystemEnabled(s, step) && Delivered(s.names, d, s.workers) && step.OtherPut?
    requires HeldOnlyBy(s.workers, None, step.n)
    ensures DeliveredAfter(s, d, step)
  {
    OtherPutEffect(s, d, step);
    OtherPutDelivers(s.names, d, s.workers, step.n);
    DeliveredLooksAt(s, d, step, d[step.n := s.names[step.n - 1].data], s.workers);
  }

  lemma OthersDeliver(s: System, d: Offered, step: SystemStep)
    requires SystemEnabled(s, step) && Delivered(s.names, d, s.workers)
    requires step.OtherAlloc? || step.OnQueue?
    ensures DeliveredAfter(s, d, step)
  {
    if step.OtherAlloc? {
      OtherTakeDelivers(s.names, d, s.workers, step.data);
    }
  }

  lemma SmoothStepDelivers(s: System, d: Offered, step: SystemStep)
    requires Disciplined(s) && SystemEnabled(s, step) && Delivered(s.names, d, s.workers)
    requires step.Put? ==> step.encoded && EnqueueOutcome(s.queue, s.workers[step.w].n, step.link) == Accepted
    ensures DeliveredAfter(s, d, step)
  {
    if Quiet(step) {
      QuietDelivers(s, d, step);
    } else if step.Alloc? {
      AllocDelivers(s, d, step);
    } else if step.Put? {
      OneHolder(s, step.w);
      var job, n := s.workers[step.w].job, s.workers[step.w].n;
      PutGoesOn(s, step);
      PutIsEntered(s, d, step, n);
      SmoothPutDelivers(s, d, step, n, Sending(job.(place := Next(job.place))));
    } else if step.OtherPut? {
      NoHolder(s, step.n);
      OtherPutStepDelivers(s, d, step);
    } else {
      OthersDeliver(s, d, step);
    }
  }

  lemma OneWorkerMoves(s: System, step: SystemStep)
    requires SystemEnabled(s, step)
    requires step.Begin? || step.Call? || step.Skip? || step.Fail? || step.Fetch? || step.Advance?
    ensures var t := SystemApply(s, step);
            && step.w in t.workers && t.workers == s.workers[step.w := t.workers[step.w]]
            && !s.workers[step.w].Putting? && !t.workers[step.w].Putting? && t.names == s.names
  {
    QuietSteps(s, step);
    match step
    case Advance(w) => AdvancedWorkers(s, w, s.workers[w].job);
    case Begin(_) =>
    case Call(_, _) =>
    case Skip(_) =>
    case Fail(_, _) =>
    case Fetch(_, _) =>
  }

  lemma AdvancedWorkers(s: System, w: nat, job: Job)
    ensures var t := MovedOn(s, w, job);
            w in t.workers && t.workers == s.workers[w := t.workers[w]] && !t.workers[w].Putting?
  {
    match job.place.phase
    case BeforePhase =>
    case ResponsePhase =>
    case AfterPhase =>
  }

  lemma SmoothStep(s: System, d: Offered, step: SystemStep)
    requires Disciplined(s) && SystemEnabled(s, step) && Smooth(s, d, step) && RunsSmoothly(s, d)
    ensures RunsSmoothly(SystemApply(s, step), WithPut(d, s, step))
  {
    QueueMoves(s, d, step);
    SmoothIsHarmless(s, d, step);
    if OnTheQueue(s, step).Some? {
      HarmlessReorders(s.queue, d, OnTheQueue(s, step).value);
    }
    SmoothStepDelivers(s, d, step);
  }

  /** What has been put after `i` steps. */
  ghost function PutSoFar(states: seq<System>, steps: seq<SystemStep>, i: nat): Offered
    requires IsSystemRun(states, steps) && i <= |steps|
  {
    if i == 0 then map[]
    else
      assert SystemStepAt(states, steps, i - 1);
      WithPut(PutSoFar(states, steps, i - 1), states[i - 1], steps[i - 1])
  }

  ghost predicate SmoothAt(states: seq<System>, steps: seq<SystemStep>, i: nat)
    requires IsSystemRun(states, steps) && i < |steps|
  {
    Smooth(states[i], PutSoFar(states, steps, i), steps[i])
  }

  /** A session without a predecessor. */
  ghost predicate Fresh(s: System, cap: int) {
    Initial(s) && s.queue == Init(cap) && s.names == []
  }

  lemma {:induction false} SmoothRun(states: seq<System>, steps: seq<SystemStep>, cap: int, i: nat)
    requires IsSystemRun(states, steps) && Fresh(states[0], cap) && i < |states|
    requires forall j: nat | j < i :: SmoothAt(states, steps, j)
    ensures RunsSmoothly(states[i], PutSoFar(states, steps, i))
  {
    if i > 0 {
      SmoothRun(states, steps, cap, i - 1);
      assert Disciplined(states[i - 1]) by {
        SystemRun(states, steps, i - 1);
      }
      assert SystemStepAt(states, steps, i - 1) && SmoothAt(states, steps, i - 1);
      SmoothStep(states[i - 1], PutSoFar(states, steps, i - 1), steps[i - 1]);
    }
  }

  // ---------- At rest ----------

  /** All workers are idle, and the numbers taken elsewhere have been put. */
  ghost predicate AtRest(s: System, d: Offered) {
    && (forall w | w in s.workers :: s.workers[w].Idle?)
    && (forall a: nat | a < |s.names| && s.names[a].Elsewhere? :: a + 1 in d)
  }

  /** The wire shows 1, 2, 3, ... up to the counter, each with the payload it was taken for, and nothing is parked. */
  ghost predicate ShowsNames(s: System) {
    && s.queue.waiting == multiset{} && |s.queue.firsts| == |s.names|
    && forall p | 0 <= p < |s.names| :: FrameOf(s.queue.firsts[p].msg) == Frame(p + 1, s.names[p].data)
  }

  lemma EveryNumberPut(s: System, d: Offered, a: nat)
    requires Delivered(s.names, d, s.workers) && AtRest(s, d) && a < |s.names|
    ensures a + 1 in d
  {
    var o := s.names[a];
    if o.FromTask? {
      assert !InFlight(s.workers, a + 1);
    }
  }

  lemma RestShowsNames(s: System, d: Offered)
    requires RunsSmoothly(s, d) && AtRest(s, d)
    ensures ShowsNames(s)
  {
    forall n: nat | 1 <= n <= |s.names| ensures n in d {
      EveryNumberPut(s, d, n - 1);
    }
    assert LeastMissing(d, |s.names| + 1);
    LeastMissingIsUnique(d, s.queue.next, |s.names| + 1);
    assert s.queue.waiting == multiset{};
  }

  /**
   Whatever the interleaving was: when all is done, everything is on the wire, in the order
   in which the numbers were taken.
   */
  lemma AllOnTheWire(states: seq<System>, steps: seq<SystemStep>, cap: int, i: nat)
    requires IsSystemRun(states, steps) && Fresh(states[0], cap) && i < |states|
    requires forall j: nat | j < i :: SmoothAt(states, steps, j)
    requires AtRest(states[i], PutSoFar(states, steps, i))
    ensures ShowsNames(states[i])
  {
    SmoothRun(states, steps, cap, i);
    RestShowsNames(states[i], PutSoFar(states, steps, i));
  }

  // ---------- Nothing is missing ----------

  /** Worker `w` is sending the messages of (task, phase) `key`. */
  ghost predicate SendsFor(workers: map<nat, Worker>, w: nat, key: (Task, Phase)) {
    && w in workers && (workers[w].Sending? || workers[w].Putting?)
    && workers[w].job.task == key.0 && workers[w].job.place.phase == key.1
  }

  /** Every list is complete, or some worker outside `but` is at it. */
  ghost predicate Progress(s: System, but: set<nat>) {
    forall key | key in s.lists :: Completed(s.names, s.lists, key.0, key.1) || SomeoneSends(s.workers, but, key)
  }

  ghost predicate SomeoneSends(workers: map<nat, Worker>, but: set<nat>, key: (Task, Phase)) {
    exists w :: w !in but && SendsFor(workers, w, key)
  }

  /** A worker that is not sending, or has reached the end of a phase, is not needed. */
  lemma NotNeeded(s: System, w: nat)
    requires Progress(s, {}) && w in s.workers && Gapless(s)
    requires s.workers[w].Sending? || s.workers[w].Idle? || s.workers[w].Calling?
    requires s.workers[w].Sending? ==> s.workers[w].job.place.index >= |Items(s, s.workers[w].job)|
    ensures Progress(s, {w})
  {
    if s.workers[w].Sending? {
      assert JobEntitled(s.names, s.lists, s.workers[w]);
      EndOfPhase(s, s.workers[w].job);
    }
    forall key | key in s.lists && SomeoneSends(s.workers, {}, key) && !SendsFor(s.workers, w, key)
      ensures SomeoneSends(s.workers, {w}, key)
    {
      var v :| SendsFor(s.workers, v, key);
    }
  }

  lemma WorkerMovesOn(s: System, w: nat, x: Worker)
    requires Progress(s, {w})
    ensures Progress(WithWorker(s, w, x), {})
  {
    var t := WithWorker(s, w, x);
    forall key | SomeoneSends(s.workers, {w}, key) ensures SomeoneSends(t.workers, {}, key) {
      var v :| v != w && SendsFor(s.workers, v, key);
      assert SendsFor(t.workers, v, key);
    }
  }

  lemma WorkerEnters(s: System, w: nat, job: Job, ph: Phase, items: seq<Bytes>)
    requires Progress(s, {w})
    ensures Progress(Enter(s, w, job, ph, items), {})
  {
    var t := Enter(s, w, job, ph, items);
    assert SendsFor(t.workers, w, (job.task, ph));
    forall key | SomeoneSends(s.workers, {w}, key) ensures SomeoneSends(t.workers, {}, key) {
      var v :| v != w && SendsFor(s.workers, v, key);
      assert SendsFor(t.workers, v, key);
    }
    forall key | key in t.lists ensures Completed(t.names, t.lists, key.0, key.1) || SomeoneSends(t.workers, {}, key) {
      assert key != (job.task, ph) ==> key in s.lists;
    }
  }

  lemma WorkerStays(s: System, w: nat, x: Worker)
    requires Progress(s, {}) && w in s.workers
    requires s.workers[w].Sending? || s.workers[w].Putting?
    requires SendsFor(map[w := x], w, (s.workers[w].job.task, s.workers[w].job.place.phase))
    ensures Progress(WithWorker(s, w, x), {})
  {
    var t := WithWorker(s, w, x);
    forall key | SomeoneSends(s.workers, {}, key) ensures SomeoneSends(t.workers, {}, key) {
      var v :| SendsFor(s.workers, v, key);
      assert SendsFor(t.workers, v, key);
    }
  }

  lemma MoreNamesProgress(s: System, o: Origin)
    requires Progress(s, {})
    ensures Progress(s.(names := s.names + [o]), {})
  {
    forall t, place | Taken(s.names, t, place) ensures Taken(s.names + [o], t, place) {
      TakenGrows(s.names, o, t, place);
    }
  }

  lemma ProgressLooksAt(s: System, t: System, but: set<nat>)
    requires Progress(s, but) && t.names == s.names && t.lists == s.lists && t.workers == s.workers
    ensures Progress(t, but)
  {
  }

  lemma AdvanceProgresses(s: System, w: nat, job: Job)
    requires Progress(s, {w})
    ensures Progress(MovedOn(s, w, job), {})
  {
    match job.place.phase
    case BeforePhase => WorkerEnters(s, w, job, ResponsePhase, Responses(job.task, job.response));
    case ResponsePhase =>
      if job.failed {
        WorkerMovesOn(s, w, Idle);
      } else {
        var items := N.Payloads(N.Pending(s.ops, N.After, job.task.grid));
        WorkerEnters(s, w, job, AfterPhase, items);
        ProgressLooksAt(Enter(s, w, job, AfterPhase, items), MovedOn(s, w, job), {});
      }
    case AfterPhase => WorkerMovesOn(s, w, Idle);
  }

  /** Steps of a worker that starts or finishes something. */
  lemma WorkerProgresses(s: System, step: SystemStep)
    requires Progress(s, {}) && Gapless(s) && SystemEnabled(s, step)
    requires step.Begin? || step.Call? || step.Skip? || step.Fail? || step.Fetch? || step.Advance?
    ensures Progress(SystemApply(s, step), {})
  {
    var w := step.w;
    NotNeeded(s, w);
    match step
    case Begin(_) =>
      WorkerMovesOn(s, w, Calling(s.channel[0]));
      ProgressLooksAt(WithWorker(s, w, Calling(s.channel[0])), SystemApply(s, step), {});
    case Call(_, grid) =>
      WorkerMovesOn(s, w, Calling(Task(s.nextTask, grid, true)));
      ProgressLooksAt(WithWorker(s, w, Calling(Task(s.nextTask, grid, true))), SystemApply(s, step), {});
    case Skip(_) => WorkerMovesOn(s, w, Idle);
    case Fail(_, error) => ReplyProgresses(s, w, error, ResponsePhase, [error], SystemApply(s, step), true);
    case Fetch(_, response) =>
      var items := N.Payloads(N.Pending(s.ops, N.Before, s.workers[w].task.grid));
      ReplyProgresses(s, w, response, BeforePhase, items, SystemApply(s, step), false);
    case Advance(_) => AdvanceProgresses(s, w, s.workers[w].job);
  }

  lemma ReplyProgresses(s: System, w: nat, reply: Bytes, ph: Phase, items: seq<Bytes>, t: System, failed: bool)
    requires Progress(s, {w}) && w in s.workers && s.workers[w].Calling?
    requires var u := Enter(s, w, Job(s.workers[w].task, Place(BeforePhase, 0), reply, failed), ph, items);
             t.names == u.names && t.lists == u.lists && t.workers == u.workers
    ensures Progress(t, {})
  {
    var job := Job(s.workers[w].task, Place(BeforePhase, 0), reply, failed);
    WorkerEnters(s, w, job, ph, items);
    ProgressLooksAt(Enter(s, w, job, ph, items), t, {});
  }

  lemma AllocProgresses(s: System, w: nat)
    requires Progress(s, {}) && SystemEnabled(s, Alloc(w))
    ensures Progress(SystemApply(s, Alloc(w)), {})
  {
    var job := s.workers[w].job;
    var x, o := Putting(job, |s.names| + 1), FromTask(job.task, job.place, Items(s, job)[job.place.index]);
    WorkerStays(s, w, x);
    MoreNamesProgress(WithWorker(s, w, x), o);
    ProgressLooksAt(WithWorker(s, w, x).(names := s.names + [o]), SystemApply(s, Alloc(w)), {});
  }

  lemma PutProgresses(s: System, step: SystemStep)
    requires Progress(s, {}) && SystemEnabled(s, step) && step.Put? && step.encoded
    requires EnqueueOutcome(s.queue, s.workers[step.w].n, step.link) == Accepted
    ensures Progress(SystemApply(s, step), {})
  {
    var w, job, n := step.w, s.workers[step.w].job, s.workers[step.w].n;
    var x, t := Sending(job.(place := Next(job.place))), Enqueued(s, n, step.now, step.link, step.burst);
    ProgressLooksAt(s, t, {});
    WorkerStays(t, w, x);
  }

  lemma StepProgresses(s: System, step: SystemStep)
    requires Progress(s, {}) && Gapless(s) && SystemEnabled(s, step)
    requires step.Put? ==> step.encoded && EnqueueOutcome(s.queue, s.workers[step.w].n, step.link) == Accepted
    ensures Progress(SystemApply(s, step), {})
  {
    if step.Alloc? {
      AllocProgresses(s, step.w);
    } else if step.Put? {
      PutProgresses(s, step);
    } else if step.OtherAlloc? {
      MoreNamesProgress(s, Elsewhere(step.data));
    } else if step.Submit? || step.OtherPut? || step.OnQueue? || step.OnNotifies? {
      ProgressLooksAt(s, SystemApply(s, step), {});
    } else {
      WorkerProgresses(s, step);
    }
  }

  lemma SmoothPutIsAccepted(s: System, d: Offered, step: SystemStep)
    requires SystemEnabled(s, step) && Smooth(s, d, step) && RunsSmoothly(s, d) && step.Put?
    ensures step.encoded && EnqueueOutcome(s.queue, s.workers[step.w].n, step.link) == Accepted
  {
    SmoothIsHarmless(s, d, step);
    HarmlessReorders(s.queue, d, OnTheQueue(s, step).value);
  }

  lemma {:induction false} ProgressRun(states: seq<System>, steps: seq<SystemStep>, cap: int, i: nat)
    requires IsSystemRun(states, steps) && Fresh(states[0], cap) && i < |states|
    requires forall j: nat | j < i :: SmoothAt(states, steps, j)
    ensures Progress(states[i], {})
  {
    if i > 0 {
      ProgressRun(states, steps, cap, i - 1);
      SmoothRun(states, steps, cap, i - 1);
      assert Gapless(states[i - 1]) by {
        SystemRun(states, steps, i - 1);
      }
      assert SystemStepAt(states, steps, i - 1) && SmoothAt(states, steps, i - 1);
      if steps[i - 1].Put? {
        SmoothPutIsAccepted(states[i - 1], PutSoFar(states, steps, i - 1), steps[i - 1]);
      }
      StepProgresses(states[i - 1], steps[i - 1]);
    }
  }

  /** The `k`th message of the list `key` is on the wire. */
  ghost predicate OnWireFor(s: System, key: (Task, Phase), k: nat)
    requires key in s.lists && k < |s.lists[key]|
  {
    exists p: nat | p < |s.queue.firsts| ::
      && OriginOf(s, p) == FromTask(key.0, Place(key.1, k), s.lists[key][k])
      && s.queue.firsts[p].msg.data == s.lists[key][k]
  }

  /**
   And no message that a task set out to send is missing: all notifies it fetched and its
   response are on the wire.
   */
  lemma NothingMissing(states: seq<System>, steps: seq<SystemStep>, cap: int, i: nat, key: (Task, Phase), k: nat)
    requires IsSystemRun(states, steps) && Fresh(states[0], cap) && i < |states|
    requires forall j: nat | j < i :: SmoothAt(states, steps, j)
    requires AtRest(states[i], PutSoFar(states, steps, i))
    requires key in states[i].lists && k < |states[i].lists[key]|
    ensures OnWireFor(states[i], key, k)
  {
    ProgressRun(states, steps, cap, i);
    AllOnTheWire(states, steps, cap, i);
    assert Disciplined(states[i]) by {
      SystemRun(states, steps, i);
    }
    TakenIsOnWire(states[i], key, k);
  }

  lemma TakenIsOnWire(s: System, key: (Task, Phase), k: nat)
    requires ShowsNames(s) && Disciplined(s) && Progress(s, {}) && key in s.lists && k < |s.lists[key]|
    requires forall w | w in s.workers :: s.workers[w].Idle?
    ensures OnWireFor(s, key, k)
  {
    assert !SomeoneSends(s.workers, {}, key);
    assert Completed(s.names, s.lists, key.0, key.1);
    assert Taken(s.names, key.0, Place(key.1, k));
    var a :| TakenAt(s.names, a, key.0, Place(key.1, k));
    assert Recorded(s.lists, s.names[a]);
    assert FrameOf(s.queue.firsts[a].msg) == Frame(a + 1, s.names[a].data);
    assert OriginOf(s, a) == s.names[a];
  }
}
