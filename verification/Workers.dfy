/**
 Any number of workers pushing to one session.

 A worker serves a request by sending the notifies bound before its response, the
 response, and the notifies bound after it. For each message it first takes a number
 from the session's counter and then, in a separate critical section, enqueues the
 message under that number; steps of other workers, other pushes, the client's
 acknowledgements and the queue's timer may come in between.
 */
module Workers {
  import opened Common
  import opened QueueSpec
  import opened QueueHistory
  import N = NotifySpec
  import NotifyHistory

  // ---------- State ----------

  datatype Phase = BeforePhase | ResponsePhase | AfterPhase

  function Rank(ph: Phase): nat {
    match ph
    case BeforePhase => 0
    case ResponsePhase => 1
    case AfterPhase => 2
  }

  /** A position in the program of a task: the phase, and the message within it. */
  datatype Place = Place(phase: Phase, index: nat)

  predicate Earlier(a: Place, b: Place) {
    Rank(a.phase) < Rank(b.phase) || (a.phase == b.phase && a.index < b.index)
  }

  function Next(place: Place): Place {
    Place(place.phase, place.index + 1)
  }

  /** `strict` tasks give up altogether when a before-notify cannot be enqueued, and send no empty response. */
  datatype Task = Task(id: nat, grid: nat, strict: bool)

  /** Who took a number from the counter, and for what. */
  datatype Origin = Elsewhere(data: Bytes) | FromTask(task: Task, place: Place, data: Bytes)

  /** What each task set out to send in each phase. */
  type Lists = map<(Task, Phase), seq<Bytes>>

  /** A task under way; `failed` says that the response is an error response, which nothing follows. */
  datatype Job = Job(task: Task, place: Place, response: Bytes, failed: bool)

  datatype Worker =
    | Idle
    | Calling(task: Task)  // waiting for the upstream service
    | Sending(job: Job)  // about to take a number for the message at job.place
    | Putting(job: Job, n: nat)  // holds number n for that message

  /**
   `names[n - 1]` is the origin of number n, so |names| is the session's counter.
   `ops` are the operations on the notify bindings so far. `lists` records which
   payloads a task set out to send in each phase, `takes` the operation by which it
   fetched them, and `replies` what a task got from upstream, or the error it sends instead.
   */
  datatype System = System(
    queue: Queue,
    names: seq<Origin>,
    ops: seq<N.Op>,
    channel: seq<Task>,
    capacity: nat,
    started: bool,
    nextTask: nat,
    workers: map<nat, Worker>,
    lists: Lists,
    takes: map<(Task, Phase), nat>,
    replies: map<Task, Bytes>)

  /** A session may start with numbers and sent messages inherited from a predecessor. */
  ghost predicate Initial(s: System) {
    && Stream(s.queue) && s.queue.firsts == [] && s.queue.waiting == multiset{}
    && (forall a | 0 <= a < |s.names| :: s.names[a].Elsewhere?)
    && s.ops == [] && s.channel == [] && s.lists == map[] && s.takes == map[] && s.replies == map[]
    && forall w | w in s.workers :: s.workers[w] == Idle
  }

  // ---------- Steps ----------

  datatype SystemStep =
    | Submit(grid: nat)
    | Begin(w: nat)
    | Call(w: nat, grid: nat)
    | Skip(w: nat)
    | Fail(w: nat, error: Bytes)
    | Fetch(w: nat, response: Bytes)
    | Alloc(w: nat)
    | Put(w: nat, encoded: bool, now: int, link: nat -> bool, burst: seq<OrderedMessage>)
    | Advance(w: nat)
    | OtherAlloc(data: Bytes)
    | OtherPut(n: nat, now: int, link: nat -> bool, burst: seq<OrderedMessage>)
    | OnQueue(step: Step)
    | OnNotifies(op: N.Op)

  function Items(s: System, job: Job): seq<Bytes> {
    if (job.task, job.place.phase) in s.lists then s.lists[(job.task, job.place.phase)] else []
  }

  ghost predicate SystemEnabled(s: System, step: SystemStep) {
    match step
    case Submit(_) => true
    case Begin(w) => w in s.workers && s.workers[w].Idle? && s.channel != []
    case Call(w, _) => w in s.workers && s.workers[w].Idle?
    case Skip(w) => w in s.workers && s.workers[w].Calling?
    case Fail(w, _) => w in s.workers && s.workers[w].Calling? && !s.workers[w].task.strict
    case Fetch(w, _) => w in s.workers && s.workers[w].Calling?
    case Alloc(w) =>
      w in s.workers && s.workers[w].Sending? && s.workers[w].job.place.index < |Items(s, s.workers[w].job)|
    case Put(w, encoded, now, link, burst) =>
      && w in s.workers && s.workers[w].Putting? && 1 <= s.workers[w].n <= |s.names|
      && if encoded then EnqueueEnabled(s.queue, s.workers[w].n, link, burst) else burst == []
    case Advance(w) =>
      w in s.workers && s.workers[w].Sending? && s.workers[w].job.place.index >= |Items(s, s.workers[w].job)|
    case OtherAlloc(_) => true
    case OtherPut(n, _, link, burst) =>
      1 <= n <= |s.names| && s.names[n - 1].Elsewhere? && EnqueueEnabled(s.queue, n, link, burst)
    case OnQueue(inner) => !inner.Enqueue? && Enabled(s.queue, inner)
    case OnNotifies(_) => true
  }

  function WithWorker(s: System, w: nat, x: Worker): System {
    s.(workers := s.workers[w := x])
  }

  /** Worker `w` starts phase `ph` of its task, with the payloads `items`. */
  function Enter(s: System, w: nat, job: Job, ph: Phase, items: seq<Bytes>): System {
    WithWorker(s, w, Sending(job.(place := Place(ph, 0)))).(lists := s.lists[(job.task, ph) := items])
  }

  /** It fetches the bound notifies first; the bindings forget them. */
  function EnterFetching(s: System, w: nat, job: Job, ph: Phase, side: N.Side): System {
    Enter(s, w, job, ph, N.Payloads(N.Pending(s.ops, side, job.task.grid))).(
      ops := s.ops + [N.Take(side, job.task.grid)],
      takes := s.takes[(job.task, ph) := |s.ops|])
  }

  /** What a task that got `reply` sends as its response. */
  function Responses(t: Task, reply: Bytes): seq<Bytes> {
    if t.strict && reply == [] then [] else [reply]
  }

  function EnterResponse(s: System, w: nat, job: Job): System {
    Enter(s, w, job, ResponsePhase, Responses(job.task, job.response))
  }

  /** Task `t` got `reply`. */
  function Replied(s: System, t: Task, reply: Bytes): System {
    s.(replies := s.replies[t := reply])
  }

  /** The message at job.place could not be encoded or enqueued. */
  function Abandon(s: System, w: nat, job: Job): System {
    if job.place.phase == BeforePhase && !job.task.strict then EnterResponse(s, w, job) else WithWorker(s, w, Idle)
  }

  function MovedOn(s: System, w: nat, job: Job): System {
    match job.place.phase
    case BeforePhase => EnterResponse(s, w, job)
    case ResponsePhase => if job.failed then WithWorker(s, w, Idle) else EnterFetching(s, w, job, AfterPhase, N.After)
    case AfterPhase => WithWorker(s, w, Idle)
  }

  function Submitted(s: System, grid: nat): System {
    if s.started && |s.channel| < s.capacity
    then s.(channel := s.channel + [Task(s.nextTask, grid, false)], nextTask := s.nextTask + 1)
    else s
  }

  function Begun(s: System, w: nat): System
    requires s.channel != []
  {
    WithWorker(s, w, Calling(s.channel[0])).(channel := s.channel[1..])
  }

  function Called(s: System, w: nat, grid: nat): System {
    WithWorker(s, w, Calling(Task(s.nextTask, grid, true))).(nextTask := s.nextTask + 1)
  }

  function Allocated(s: System, w: nat, job: Job): System
    requires job.place.index < |Items(s, job)|
  {
    WithWorker(s, w, Putting(job, |s.names| + 1)).(
      names := s.names + [FromTask(job.task, job.place, Items(s, job)[job.place.index])])
  }

  ghost function Enqueued(s: System, n: nat, now: int, link: nat -> bool, burst: seq<OrderedMessage>): System
    requires 1 <= n <= |s.names|
  {
    s.(queue := AfterEnqueue(s.queue, n, s.names[n - 1].data, now, link, burst))
  }

  /** Worker `w` learns whether its message was enqueued, and goes on with the next or gives up. */
  function Settled(s: System, w: nat, job: Job, ok: bool): System {
    if ok then WithWorker(s, w, Sending(job.(place := Next(job.place)))) else Abandon(s, w, job)
  }

  ghost function SystemApply(s: System, step: SystemStep): System
    requires SystemEnabled(s, step)
  {
    match step
    case Submit(grid) => Submitted(s, grid)
    case Begin(w) => Begun(s, w)
    case Call(w, grid) => Called(s, w, grid)
    case Skip(w) => WithWorker(s, w, Idle)
    case Fail(w, error) =>
      EnterResponse(Replied(s, s.workers[w].task, error), w, Job(s.workers[w].task, Place(BeforePhase, 0), error, true))
    case Fetch(w, response) =>
      EnterFetching(Replied(s, s.workers[w].task, response), w,
                    Job(s.workers[w].task, Place(BeforePhase, 0), response, false), BeforePhase, N.Before)
    case Alloc(w) => Allocated(s, w, s.workers[w].job)
    case Put(w, encoded, now, link, burst) =>
      var job, n := s.workers[w].job, s.workers[w].n;
      if encoded
      then Settled(Enqueued(s, n, now, link, burst), w, job, EnqueueOutcome(s.queue, n, link) == Accepted)
      else Settled(s, w, job, false)
    case Advance(w) => MovedOn(s, w, s.workers[w].job)
    case OtherAlloc(data) => s.(names := s.names + [Elsewhere(data)])
    case OtherPut(n, now, link, burst) => Enqueued(s, n, now, link, burst)
    case OnQueue(inner) => s.(queue := Apply(s.queue, inner))
    case OnNotifies(op) => s.(ops := s.ops + [op])
  }

  ghost predicate SystemStepAt(states: seq<System>, steps: seq<SystemStep>, i: nat)
    requires |states| == |steps| + 1 && i < |steps|
  {
    SystemEnabled(states[i], steps[i]) && states[i + 1] == SystemApply(states[i], steps[i])
  }

  ghost predicate IsSystemRun(states: seq<System>, steps: seq<SystemStep>) {
    |states| == |steps| + 1 && forall i: nat | i < |steps| :: SystemStepAt(states, steps, i)
  }

  // ---------- The wire carries what was allocated ----------

  ghost predicate NamedBy(names: seq<Origin>, m: OrderedMessage) {
    1 <= m.serverSeq <= |names| && names[m.serverSeq - 1].data == m.data
  }

  ghost predicate AllNamed(q: Queue, names: seq<Origin>) {
    && (forall m | m in q.waiting :: NamedBy(names, m))
    && (forall i | 0 <= i < |q.firsts| :: NamedBy(names, q.firsts[i].msg))
  }

  /** Every parked or transmitted message carries the payload for which its number was taken. */
  ghost predicate Labelled(q: Queue, names: seq<Origin>) {
    Stream(q) && AllNamed(q, names)
  }

  lemma LabelledGrows(q: Queue, names: seq<Origin>, o: Origin)
    requires Labelled(q, names)
    ensures Labelled(q, names + [o])
  {
    forall m | NamedBy(names, m) ensures NamedBy(names + [o], m) {
    }
  }

  lemma FirstNamed(q: Queue, names: seq<Origin>, msg: OrderedMessage, now: int, burst: seq<OrderedMessage>, i: nat)
    requires AllNamed(q, names) && NamedBy(names, msg) && multiset(burst) <= q.waiting
    requires i < |Transmit(q, [msg] + burst, now).firsts|
    ensures NamedBy(names, Transmit(q, [msg] + burst, now).firsts[i].msg)
  {
    if i > |q.firsts| {
      assert burst[i - |q.firsts| - 1] in multiset(burst);
    }
  }

  lemma SendKeepsNames(q: Queue, names: seq<Origin>, msg: OrderedMessage, now: int, burst: seq<OrderedMessage>)
    requires AllNamed(q, names) && NamedBy(names, msg) && multiset(burst) <= q.waiting
    ensures AllNamed(Transmit(q, [msg] + burst, now).(waiting := q.waiting - multiset(burst)), names)
  {
    forall i: nat | i < |Transmit(q, [msg] + burst, now).firsts|
      ensures NamedBy(names, Transmit(q, [msg] + burst, now).firsts[i].msg)
    {
      FirstNamed(q, names, msg, now, burst, i);
    }
  }

  lemma EnqueueKeepsNames(
      q: Queue, names: seq<Origin>, n: nat, data: Bytes, now: int, link: nat -> bool,
      burst: seq<OrderedMessage>)
    requires AllNamed(q, names) && NamedBy(names, NewMessage(n, data, now)) && EnqueueEnabled(q, n, link, burst)
    ensures AllNamed(AfterEnqueue(q, n, data, now, link, burst), names)
  {
    if EnqueueOutcome(q, n, link) == Accepted && n == q.next {
      SendKeepsNames(q, names, NewMessage(n, data, now), now, burst);
    }
  }

  lemma EnqueueKeepsLabels(
      q: Queue, names: seq<Origin>, n: nat, now: int, link: nat -> bool, burst: seq<OrderedMessage>)
    requires Labelled(q, names) && 1 <= n <= |names| && EnqueueEnabled(q, n, link, burst)
    ensures Labelled(AfterEnqueue(q, n, names[n - 1].data, now, link, burst), names)
  {
    EnqueueKeepsStream(q, n, names[n - 1].data, now, link, burst);
    EnqueueKeepsNames(q, names, n, names[n - 1].data, now, link, burst);
  }

  lemma QueueStepKeepsLabels(q: Queue, names: seq<Origin>, step: Step)
    requires Labelled(q, names) && Enabled(q, step) && !step.Enqueue?
    ensures Labelled(Apply(q, step), names)
  {
    StreamStep(q, step);
    assert Apply(q, step).firsts == q.firsts;
    assert forall m | m in Apply(q, step).waiting :: m in q.waiting;
  }

  /** The steps that neither take a number nor touch the queue. */
  predicate Quiet(step: SystemStep) {
    !step.Alloc? && !step.Put? && !step.OtherAlloc? && !step.OtherPut? && !step.OnQueue?
  }

  lemma QuietSteps(s: System, step: SystemStep)
    requires SystemEnabled(s, step) && Quiet(step)
    ensures SystemApply(s, step).queue == s.queue && SystemApply(s, step).names == s.names
  {
    match step
    case Advance(w) => AdvancedEffect(s, w, s.workers[w].job);
    case Submit(_) =>
    case Begin(_) =>
    case Call(_, _) =>
    case Skip(_) =>
    case Fail(_, _) =>
    case Fetch(_, _) =>
    case OnNotifies(_) =>
  }

  lemma AdvancedEffect(s: System, w: nat, job: Job)
    ensures MovedOn(s, w, job).queue == s.queue && MovedOn(s, w, job).names == s.names
    ensures MovedOn(s, w, job).replies == s.replies
  {
    match job.place.phase
    case BeforePhase =>
    case ResponsePhase =>
    case AfterPhase =>
  }

  lemma SettledEffect(s: System, w: nat, job: Job, ok: bool)
    ensures Settled(s, w, job, ok).queue == s.queue && Settled(s, w, job, ok).names == s.names
    ensures Settled(s, w, job, ok).ops == s.ops && Settled(s, w, job, ok).replies == s.replies
  {
  }

  lemma EnqueuedKeepsLabels(s: System, n: nat, now: int, link: nat -> bool, burst: seq<OrderedMessage>)
    requires Labelled(s.queue, s.names) && 1 <= n <= |s.names| && EnqueueEnabled(s.queue, n, link, burst)
    ensures Labelled(Enqueued(s, n, now, link, burst).queue, s.names)
  {
    EnqueueKeepsLabels(s.queue, s.names, n, now, link, burst);
  }

  lemma PutKeepsLabels(s: System, step: SystemStep)
    requires Labelled(s.queue, s.names) && SystemEnabled(s, step) && step.Put?
    ensures Labelled(SystemApply(s, step).queue, SystemApply(s, step).names)
  {
    var w, job, n := step.w, s.workers[step.w].job, s.workers[step.w].n;
    if step.encoded {
      var t := Enqueued(s, n, step.now, step.link, step.burst);
      EnqueuedKeepsLabels(s, n, step.now, step.link, step.burst);
      SettledEffect(t, w, job, EnqueueOutcome(s.queue, n, step.link) == Accepted);
    } else {
      SettledEffect(s, w, job, false);
    }
  }

  lemma LabelsStep(s: System, step: SystemStep)
    requires Labelled(s.queue, s.names) && SystemEnabled(s, step)
    ensures Labelled(SystemApply(s, step).queue, SystemApply(s, step).names)
  {
    match step
    case Alloc(w) =>
      var job := s.workers[w].job;
      LabelledGrows(s.queue, s.names, FromTask(job.task, job.place, Items(s, job)[job.place.index]));
    case OtherAlloc(data) => LabelledGrows(s.queue, s.names, Elsewhere(data));
    case Put(_, _, _, _, _) => PutKeepsLabels(s, step);
    case OtherPut(n, now, link, burst) => EnqueuedKeepsLabels(s, n, now, link, burst);
    case OnQueue(inner) => QueueStepKeepsLabels(s.queue, s.names, inner);
    case _ => QuietSteps(s, step);
  }

  // ---------- Program order ----------

  /** The numbers a task has taken are numbered in the order of its program. */
  ghost predicate LogOrdered(names: seq<Origin>) {
    forall a, b | 0 <= a < b < |names|
                  && names[a].FromTask? && names[b].FromTask? && names[a].task.id == names[b].task.id ::
      Earlier(names[a].place, names[b].place)
  }

  /** Each of those numbers carries the payload at its place in the task's lists. */
  ghost predicate Recorded(lists: Lists, o: Origin) {
    o.FromTask? ==>
      && (o.task, o.place.phase) in lists
      && o.place.index < |lists[(o.task, o.place.phase)]|
      && lists[(o.task, o.place.phase)][o.place.index] == o.data
  }

  /** Task `t` has so far taken numbers only for places before `place`. */
  ghost predicate Behind(names: seq<Origin>, t: Task, place: Place) {
    forall a | 0 <= a < |names| && names[a].FromTask? && names[a].task.id == t.id ::
      names[a].task == t && Earlier(names[a].place, place)
  }

  ghost predicate NoNumbers(names: seq<Origin>, id: nat) {
    forall a | 0 <= a < |names| && names[a].FromTask? :: names[a].task.id != id
  }

  function TaskOf(x: Worker): Option<Task> {
    match x
    case Idle => None
    case Calling(task) => Some(task)
    case Sending(job) => Some(job.task)
    case Putting(job, _) => Some(job.task)
  }

  ghost predicate InStep(names: seq<Origin>, lists: Lists, x: Worker) {
    match x
    case Idle => true
    case Calling(task) => NoNumbers(names, task.id)
    case Sending(job) =>
      && Behind(names, job.task, job.place)
      && (job.task, job.place.phase) in lists && job.place.index <= |lists[(job.task, job.place.phase)]|
    case Putting(job, n) =>
      && Behind(names, job.task, Next(job.place))
      && 1 <= n <= |names| && names[n - 1].FromTask? && names[n - 1].task == job.task && names[n - 1].place == job.place
      && (job.task, job.place.phase) in lists && job.place.index < |lists[(job.task, job.place.phase)]|
  }

  /** No two workers, and no worker and a queued task, share a task number. */
  ghost predicate Distinct(channel: seq<Task>, workers: map<nat, Worker>, nextTask: nat) {
    && (forall i | 0 <= i < |channel| :: channel[i].id < nextTask)
    && (forall i, j | 0 <= i < j < |channel| :: channel[i].id != channel[j].id)
    && (forall w | w in workers && TaskOf(workers[w]).Some? :: TaskOf(workers[w]).value.id < nextTask)
    && (forall w, i | w in workers && TaskOf(workers[w]).Some? && 0 <= i < |channel| ::
          TaskOf(workers[w]).value.id != channel[i].id)
    && (forall w, v | w in workers && v in workers && w != v && TaskOf(workers[w]).Some? && TaskOf(workers[v]).Some? ::
          TaskOf(workers[w]).value.id != TaskOf(workers[v]).value.id)
  }

  ghost predicate Known(names: seq<Origin>, nextTask: nat) {
    forall a | 0 <= a < |names| && names[a].FromTask? :: names[a].task.id < nextTask
  }

  ghost predicate Disciplined(s: System) {
    && Distinct(s.channel, s.workers, s.nextTask) && Known(s.names, s.nextTask)
    && LogOrdered(s.names)
    && (forall a | 0 <= a < |s.names| :: Recorded(s.lists, s.names[a]))
    && (forall i | 0 <= i < |s.channel| :: NoNumbers(s.names, s.channel[i].id))
    && (forall w | w in s.workers :: InStep(s.names, s.lists, s.workers[w]))
  }

  /** A worker that goes on with its task, or drops it, leaves tasks distinct. */
  lemma SameTaskStaysDistinct(s: System, w: nat, x: Worker)
    requires Distinct(s.channel, s.workers, s.nextTask) && w in s.workers
    requires x == Idle || TaskOf(x) == TaskOf(s.workers[w])
    ensures Distinct(s.channel, s.workers[w := x], s.nextTask)
  {
  }

  lemma WithWorkerKeeps(s: System, w: nat, x: Worker)
    requires Disciplined(s) && w in s.workers
    requires x == Idle || TaskOf(x) == TaskOf(s.workers[w])
    requires InStep(s.names, s.lists, x)
    ensures Disciplined(WithWorker(s, w, x))
  {
    SameTaskStaysDistinct(s, w, x);
  }

  /** What the list of one task is has no bearing on the workers of the others. */
  lemma ListOfOther(names: seq<Origin>, lists: Lists, x: Worker, t: Task, ph: Phase, items: seq<Bytes>)
    requires InStep(names, lists, x) && (TaskOf(x).Some? ==> TaskOf(x).value.id != t.id)
    ensures InStep(names, lists[(t, ph) := items], x)
  {
  }

  lemma RecordedStays(lists: Lists, o: Origin, t: Task, ph: Phase, items: seq<Bytes>)
    requires Recorded(lists, o) && (o.FromTask? && o.task == t ==> o.place.phase != ph)
    ensures Recorded(lists[(t, ph) := items], o)
  {
  }

  lemma EnterKeeps(s: System, w: nat, job: Job, ph: Phase, items: seq<Bytes>)
    requires Disciplined(s) && w in s.workers && TaskOf(s.workers[w]) == Some(job.task)
    requires Behind(s.names, job.task, Place(ph, 0))
    ensures Disciplined(Enter(s, w, job, ph, items))
  {
    var t, x := Enter(s, w, job, ph, items), Sending(job.(place := Place(ph, 0)));
    SameTaskStaysDistinct(s, w, x);
    forall a | 0 <= a < |s.names| ensures Recorded(t.lists, s.names[a]) {
      RecordedStays(s.lists, s.names[a], job.task, ph, items);
    }
    forall v | v in t.workers ensures InStep(t.names, t.lists, t.workers[v]) {
      if v != w {
        ListOfOther(s.names, s.lists, s.workers[v], job.task, ph, items);
      }
    }
  }

  lemma OriginOfOther(names: seq<Origin>, lists: Lists, x: Worker, o: Origin)
    requires InStep(names, lists, x)
    requires o.FromTask? && TaskOf(x).Some? ==> TaskOf(x).value.id != o.task.id
    ensures InStep(names + [o], lists, x)
  {
  }

  /** A number taken by a task that is behind the place extends the log in program order. */
  lemma LogGrows(names: seq<Origin>, o: Origin)
    requires LogOrdered(names) && (o.FromTask? ==> Behind(names, o.task, o.place))
    ensures LogOrdered(names + [o])
    ensures o.FromTask? ==> Behind(names + [o], o.task, Next(o.place))
  {
  }

  lemma AllocKeeps(s: System, w: nat, job: Job)
    requires Disciplined(s) && w in s.workers && s.workers[w] == Sending(job) && job.place.index < |Items(s, job)|
    ensures Disciplined(Allocated(s, w, job))
  {
    var t := Allocated(s, w, job);
    var o := FromTask(job.task, job.place, Items(s, job)[job.place.index]);
    assert InStep(s.names, s.lists, s.workers[w]);
    assert Distinct(t.channel, t.workers, t.nextTask) by {
      SameTaskStaysDistinct(s, w, Putting(job, |s.names| + 1));
    }
    LogGrows(s.names, o);
    assert forall a | 0 <= a < |t.names| :: Recorded(t.lists, t.names[a]);
    forall v | v in t.workers ensures InStep(t.names, t.lists, t.workers[v]) {
      if v != w {
        OriginOfOther(s.names, s.lists, s.workers[v], o);
      }
    }
  }

  lemma DisciplineLooksAt(s: System, t: System)
    requires Disciplined(s)
    requires t.channel == s.channel && t.workers == s.workers && t.nextTask == s.nextTask
    requires t.names == s.names && t.lists == s.lists
    ensures Disciplined(t)
  {
  }

  /** A task behind one place is behind the start of every later phase. */
  lemma BehindNextPhase(names: seq<Origin>, t: Task, place: Place, ph: Phase)
    requires Behind(names, t, place) && Rank(place.phase) < Rank(ph)
    ensures Behind(names, t, Place(ph, 0))
  {
  }

  lemma AdvancedKeeps(s: System, w: nat, job: Job)
    requires Disciplined(s) && w in s.workers && TaskOf(s.workers[w]) == Some(job.task)
    requires Behind(s.names, job.task, job.place)
    ensures Disciplined(MovedOn(s, w, job))
  {
    match job.place.phase
    case BeforePhase =>
      BehindNextPhase(s.names, job.task, job.place, ResponsePhase);
      EnterKeeps(s, w, job, ResponsePhase, Responses(job.task, job.response));
    case ResponsePhase =>
      if job.failed {
        WithWorkerKeeps(s, w, Idle);
      } else {
        var items := N.Payloads(N.Pending(s.ops, N.After, job.task.grid));
        BehindNextPhase(s.names, job.task, job.place, AfterPhase);
        EnterKeeps(s, w, job, AfterPhase, items);
        DisciplineLooksAt(Enter(s, w, job, AfterPhase, items), MovedOn(s, w, job));
      }
    case AfterPhase => WithWorkerKeeps(s, w, Idle);
  }

  lemma AbandonKeeps(s: System, w: nat, job: Job)
    requires Disciplined(s) && w in s.workers && TaskOf(s.workers[w]) == Some(job.task)
    requires Behind(s.names, job.task, Next(job.place))
    ensures Disciplined(Abandon(s, w, job))
  {
    if job.place.phase == BeforePhase && !job.task.strict {
      BehindNextPhase(s.names, job.task, Next(job.place), ResponsePhase);
      EnterKeeps(s, w, job, ResponsePhase, [job.response]);
    } else {
      WithWorkerKeeps(s, w, Idle);
    }
  }

  lemma SettledKeeps(s: System, w: nat, job: Job, n: nat, ok: bool)
    requires Disciplined(s) && w in s.workers && s.workers[w] == Putting(job, n)
    ensures Disciplined(Settled(s, w, job, ok))
  {
    assert InStep(s.names, s.lists, s.workers[w]);
    if ok {
      WithWorkerKeeps(s, w, Sending(job.(place := Next(job.place))));
    } else {
      AbandonKeeps(s, w, job);
    }
  }

  lemma FetchKeeps(s: System, w: nat, job: Job)
    requires Disciplined(s) && w in s.workers && s.workers[w] == Calling(job.task)
    ensures Disciplined(EnterFetching(s, w, job, BeforePhase, N.Before))
  {
    var items := N.Payloads(N.Pending(s.ops, N.Before, job.task.grid));
    assert InStep(s.names, s.lists, s.workers[w]);
    EnterKeeps(s, w, job, BeforePhase, items);
    DisciplineLooksAt(Enter(s, w, job, BeforePhase, items), EnterFetching(s, w, job, BeforePhase, N.Before));
  }

  lemma FailKeeps(s: System, w: nat, job: Job)
    requires Disciplined(s) && w in s.workers && s.workers[w] == Calling(job.task) && !job.task.strict
    ensures Disciplined(EnterResponse(s, w, job))
  {
    assert InStep(s.names, s.lists, s.workers[w]);
    EnterKeeps(s, w, job, ResponsePhase, [job.response]);
  }

  lemma SubmitKeeps(s: System, grid: nat)
    requires Disciplined(s)
    ensures Disciplined(Submitted(s, grid))
  {
    assert NoNumbers(s.names, s.nextTask);
  }

  lemma BegunStaysDistinct(s: System, w: nat)
    requires Distinct(s.channel, s.workers, s.nextTask) && w in s.workers && s.workers[w].Idle? && s.channel != []
    ensures var t := Begun(s, w); Distinct(t.channel, t.workers, t.nextTask)
  {
  }

  lemma BeginKeeps(s: System, w: nat)
    requires Disciplined(s) && w in s.workers && s.workers[w].Idle? && s.channel != []
    ensures Disciplined(Begun(s, w))
  {
    BegunStaysDistinct(s, w);
    assert NoNumbers(s.names, s.channel[0].id);
  }

  lemma CallKeeps(s: System, w: nat, grid: nat)
    requires Disciplined(s) && w in s.workers && s.workers[w].Idle?
    ensures Disciplined(Called(s, w, grid))
  {
    assert NoNumbers(s.names, s.nextTask);
  }

  lemma OtherAllocKeeps(s: System, data: Bytes)
    requires Disciplined(s)
    ensures Disciplined(s.(names := s.names + [Elsewhere(data)]))
  {
    forall w | w in s.workers ensures InStep(s.names + [Elsewhere(data)], s.lists, s.workers[w]) {
      OriginOfOther(s.names, s.lists, s.workers[w], Elsewhere(data));
    }
  }

  lemma WorkerStepDisciplined(s: System, step: SystemStep)
    requires Disciplined(s) && SystemEnabled(s, step) && (step.Fail? || step.Fetch? || step.Put? || step.Advance?)
    ensures Disciplined(SystemApply(s, step))
  {
    var x := s.workers[step.w];
    match step
    case Fail(w, error) =>
      DisciplineLooksAt(s, Replied(s, x.task, error));
      FailKeeps(Replied(s, x.task, error), w, Job(x.task, Place(BeforePhase, 0), error, true));
    case Fetch(w, response) =>
      DisciplineLooksAt(s, Replied(s, x.task, response));
      FetchKeeps(Replied(s, x.task, response), w, Job(x.task, Place(BeforePhase, 0), response, false));
    case Put(w, encoded, now, link, burst) =>
      if encoded {
        var t := Enqueued(s, x.n, now, link, burst);
        DisciplineLooksAt(s, t);
        SettledKeeps(t, w, x.job, x.n, EnqueueOutcome(s.queue, x.n, link) == Accepted);
      } else {
        SettledKeeps(s, w, x.job, x.n, false);
      }
    case Advance(w) =>
      assert InStep(s.names, s.lists, x);
      AdvancedKeeps(s, w, x.job);
  }

  lemma DisciplinedStep(s: System, step: SystemStep)
    requires Disciplined(s) && SystemEnabled(s, step)
    ensures Disciplined(SystemApply(s, step))
  {
    match step
    case Submit(grid) => SubmitKeeps(s, grid);
    case Begin(w) => BeginKeeps(s, w);
    case Call(w, grid) => CallKeeps(s, w, grid);
    case Skip(w) => WithWorkerKeeps(s, w, Idle);
    case Alloc(w) => AllocKeeps(s, w, s.workers[w].job);
    case OtherAlloc(data) => OtherAllocKeeps(s, data);
    case OtherPut(_, _, _, _) => DisciplineLooksAt(s, SystemApply(s, step));
    case OnQueue(_) => DisciplineLooksAt(s, SystemApply(s, step));
    case OnNotifies(_) => DisciplineLooksAt(s, SystemApply(s, step));
    case _ => WorkerStepDisciplined(s, step);
  }

  // ---------- Where the lists come from ----------

  /**
   The payloads that a take of `grid` right after the first `p` operations returns, described
   without running them.
   */
  ghost predicate FetchedAt(ops: seq<N.Op>, p: int, side: N.Side, grid: nat, items: seq<Bytes>) {
    && 0 <= p < |ops| && ops[p] == N.Take(side, grid)
    && items == N.Payloads(N.Survivors(ops[..p], p, side, grid))
  }

  /** The bindings that phase `ph` fetches. */
  function SideOf(ph: Phase): N.Side {
    if ph == BeforePhase then N.Before else N.After
  }

  /** The lists of bound notifies are what the task's own take returned. */
  ghost predicate Provenance(ops: seq<N.Op>, takes: map<(Task, Phase), nat>, key: (Task, Phase), items: seq<Bytes>) {
    key.1 != ResponsePhase ==>
      key in takes && FetchedAt(ops, takes[key], SideOf(key.1), key.0.grid, items)
  }

  /** No two tasks, and no two phases of one, share a take. */
  ghost predicate DistinctTakes(ops: seq<N.Op>, takes: map<(Task, Phase), nat>) {
    && (forall key | key in takes :: key.1 != ResponsePhase && takes[key] < |ops|)
    && (forall key, other | key in takes && other in takes && takes[key] == takes[other] :: key == other)
  }

  ghost predicate AllFetched(s: System) {
    DistinctTakes(s.ops, s.takes) && forall key | key in s.lists :: Provenance(s.ops, s.takes, key, s.lists[key])
  }

  lemma ProvenanceGrows(ops: seq<N.Op>, op: N.Op, takes: map<(Task, Phase), nat>, key: (Task, Phase), items: seq<Bytes>)
    requires Provenance(ops, takes, key, items)
    ensures Provenance(ops + [op], takes, key, items)
  {
    if key.1 != ResponsePhase {
      assert (ops + [op])[..takes[key]] == ops[..takes[key]];
    }
  }

  lemma MoreOpsKeepFetched(s: System, op: N.Op)
    requires AllFetched(s)
    ensures AllFetched(s.(ops := s.ops + [op]))
  {
    forall key | key in s.lists ensures Provenance(s.ops + [op], s.takes, key, s.lists[key]) {
      ProvenanceGrows(s.ops, op, s.takes, key, s.lists[key]);
    }
  }

  lemma EnterFetchingFetches(s: System, w: nat, job: Job, ph: Phase)
    requires AllFetched(s) && ph != ResponsePhase
    ensures AllFetched(EnterFetching(s, w, job, ph, SideOf(ph)))
  {
    var side, grid := SideOf(ph), job.task.grid;
    var t, op := EnterFetching(s, w, job, ph, side), N.Take(side, grid);
    NotifyHistory.HoldsSurvivors(s.ops, side, grid);
    assert t.ops[..|s.ops|] == s.ops;
    forall key | key in t.lists ensures Provenance(t.ops, t.takes, key, t.lists[key]) {
      if key != (job.task, ph) {
        ProvenanceGrows(s.ops, op, s.takes, key, s.lists[key]);
      }
    }
  }

  lemma AdvancedFetched(s: System, w: nat, job: Job)
    requires AllFetched(s)
    ensures AllFetched(MovedOn(s, w, job))
  {
    if job.place.phase == ResponsePhase && !job.failed {
      EnterFetchingFetches(s, w, job, AfterPhase);
    }
  }

  lemma SettledFetched(s: System, w: nat, job: Job, ok: bool)
    requires AllFetched(s)
    ensures AllFetched(Settled(s, w, job, ok))
  {
  }

  lemma FetchedStep(s: System, step: SystemStep)
    requires AllFetched(s) && SystemEnabled(s, step)
    ensures AllFetched(SystemApply(s, step))
  {
    match step
    case Fetch(w, response) =>
      var t := s.workers[w].task;
      EnterFetchingFetches(Replied(s, t, response), w, Job(t, Place(BeforePhase, 0), response, false), BeforePhase);
    case Advance(w) => AdvancedFetched(s, w, s.workers[w].job);
    case Put(w, encoded, now, link, burst) =>
      var job, n := s.workers[w].job, s.workers[w].n;
      SettledFetched(if encoded then Enqueued(s, n, now, link, burst) else s, w, job,
                     encoded && EnqueueOutcome(s.queue, n, link) == Accepted);
    case OnNotifies(op) => MoreOpsKeepFetched(s, op);
    case _ =>
  }

  // ---------- Where the responses come from ----------

  ghost predicate ReplyKnown(replies: map<Task, Bytes>, x: Worker) {
    match x
    case Idle => true
    case Calling(task) => task !in replies
    case Sending(job) => job.task in replies && replies[job.task] == job.response
    case Putting(job, _) => job.task in replies && replies[job.task] == job.response
  }

  /** A response list is what the task's one reply calls for; tasks that wait for upstream have got none yet. */
  ghost predicate AllReplied(s: System) {
    && (forall t | t in s.replies :: t.id < s.nextTask)
    && (forall i | 0 <= i < |s.channel| :: s.channel[i] !in s.replies)
    && (forall w | w in s.workers :: ReplyKnown(s.replies, s.workers[w]))
    && (forall key | key in s.lists && key.1 == ResponsePhase ::
          key.0 in s.replies && s.lists[key] == Responses(key.0, s.replies[key.0]))
  }

  lemma RepliedLooksAt(s: System, t: System)
    requires AllReplied(s)
    requires t.channel == s.channel && t.workers == s.workers && t.nextTask == s.nextTask
    requires t.replies == s.replies && t.lists == s.lists
    ensures AllReplied(t)
  {
  }

  lemma WithWorkerReplied(s: System, w: nat, x: Worker)
    requires AllReplied(s) && ReplyKnown(s.replies, x)
    ensures AllReplied(WithWorker(s, w, x))
  {
  }

  lemma EnterReplied(s: System, w: nat, job: Job, ph: Phase, items: seq<Bytes>)
    requires AllReplied(s) && ReplyKnown(s.replies, Sending(job))
    requires ph == ResponsePhase ==> items == Responses(job.task, job.response)
    ensures AllReplied(Enter(s, w, job, ph, items))
  {
    WithWorkerReplied(s, w, Sending(job.(place := Place(ph, 0))));
  }

  /** A reply is new to its task, and none of another's business. */
  lemma ReplyArrives(s: System, w: nat, reply: Bytes)
    requires AllReplied(s) && Disciplined(s) && w in s.workers && s.workers[w].Calling?
    ensures var u := Replied(s, s.workers[w].task, reply); AllReplied(u.(workers := u.workers - {w}))
  {
    var t := s.workers[w].task;
    var u := Replied(s, t, reply);
    assert TaskOf(s.workers[w]) == Some(t);
    forall v | v in u.workers && v != w ensures ReplyKnown(u.replies, u.workers[v]) {
      assert ReplyKnown(s.replies, s.workers[v]);
      assert TaskOf(s.workers[v]).Some? ==> TaskOf(s.workers[v]).value.id != t.id;
    }
  }

  lemma StartsReplied(s: System, w: nat, job: Job, ph: Phase, items: seq<Bytes>)
    requires AllReplied(s) && Disciplined(s) && w in s.workers && s.workers[w] == Calling(job.task)
    requires ph == ResponsePhase ==> items == Responses(job.task, job.response)
    ensures AllReplied(Enter(Replied(s, job.task, job.response), w, job, ph, items))
  {
    var u := Replied(s, job.task, job.response);
    ReplyArrives(s, w, job.response);
    var v := u.(workers := u.workers - {w});
    EnterReplied(v, w, job, ph, items);
    assert Enter(v, w, job, ph, items).workers == Enter(u, w, job, ph, items).workers;
  }

  lemma AdvancedReplied(s: System, w: nat, job: Job)
    requires AllReplied(s) && ReplyKnown(s.replies, Sending(job))
    ensures AllReplied(MovedOn(s, w, job))
  {
    match job.place.phase
    case BeforePhase => EnterReplied(s, w, job, ResponsePhase, Responses(job.task, job.response));
    case ResponsePhase =>
      if job.failed {
        WithWorkerReplied(s, w, Idle);
      } else {
        var items := N.Payloads(N.Pending(s.ops, N.After, job.task.grid));
        EnterReplied(s, w, job, AfterPhase, items);
        RepliedLooksAt(Enter(s, w, job, AfterPhase, items), MovedOn(s, w, job));
      }
    case AfterPhase => WithWorkerReplied(s, w, Idle);
  }

  lemma SettledReplied(s: System, w: nat, job: Job, ok: bool)
    requires AllReplied(s) && ReplyKnown(s.replies, Sending(job))
    ensures AllReplied(Settled(s, w, job, ok))
  {
    if ok {
      WithWorkerReplied(s, w, Sending(job.(place := Next(job.place))));
    } else if job.place.phase == BeforePhase && !job.task.strict {
      EnterReplied(s, w, job, ResponsePhase, Responses(job.task, job.response));
    } else {
      WithWorkerReplied(s, w, Idle);
    }
  }

  lemma WorkerStepReplied(s: System, step: SystemStep)
    requires AllReplied(s) && Disciplined(s) && SystemEnabled(s, step)
    requires step.Fail? || step.Fetch? || step.Put? || step.Advance?
    ensures AllReplied(SystemApply(s, step))
  {
    var x := s.workers[step.w];
    assert ReplyKnown(s.replies, x);
    match step
    case Fail(w, error) =>
      StartsReplied(s, w, Job(x.task, Place(BeforePhase, 0), error, true), ResponsePhase, Responses(x.task, error));
    case Fetch(w, response) =>
      var job := Job(x.task, Place(BeforePhase, 0), response, false);
      var items := N.Payloads(N.Pending(s.ops, N.Before, x.task.grid));
      StartsReplied(s, w, job, BeforePhase, items);
      RepliedLooksAt(Enter(Replied(s, x.task, response), w, job, BeforePhase, items), SystemApply(s, step));
    case Put(w, encoded, now, link, burst) =>
      if encoded {
        var t := Enqueued(s, x.n, now, link, burst);
        RepliedLooksAt(s, t);
        SettledReplied(t, w, x.job, EnqueueOutcome(s.queue, x.n, link) == Accepted);
      } else {
        SettledReplied(s, w, x.job, false);
      }
    case Advance(w) => AdvancedReplied(s, w, x.job);
  }

  lemma BeginReplied(s: System, w: nat)
    requires AllReplied(s) && s.channel != []
    ensures AllReplied(Begun(s, w))
  {
    assert s.channel[0] !in s.replies;
  }

  lemma AllocReplied(s: System, w: nat, job: Job)
    requires AllReplied(s) && ReplyKnown(s.replies, Sending(job)) && job.place.index < |Items(s, job)|
    ensures AllReplied(Allocated(s, w, job))
  {
    WithWorkerReplied(s, w, Putting(job, |s.names| + 1));
    RepliedLooksAt(WithWorker(s, w, Putting(job, |s.names| + 1)), Allocated(s, w, job));
  }

  lemma QueueingReplied(s: System, step: SystemStep)
    requires AllReplied(s) && SystemEnabled(s, step)
    requires step.Submit? || step.Begin? || step.Call? || step.Skip? || step.Alloc?
    ensures AllReplied(SystemApply(s, step))
  {
    match step
    case Submit(grid) => assert AllReplied(Submitted(s, grid));
    case Begin(w) => BeginReplied(s, w);
    case Call(w, grid) => assert AllReplied(Called(s, w, grid));
    case Skip(w) => WithWorkerReplied(s, w, Idle);
    case Alloc(w) =>
      assert ReplyKnown(s.replies, s.workers[w]);
      AllocReplied(s, w, s.workers[w].job);
  }

  lemma RepliedStep(s: System, step: SystemStep)
    requires AllReplied(s) && Disciplined(s) && SystemEnabled(s, step)
    ensures AllReplied(SystemApply(s, step))
  {
    if step.Fail? || step.Fetch? || step.Put? || step.Advance? {
      WorkerStepReplied(s, step);
    } else if step.Submit? || step.Begin? || step.Call? || step.Skip? || step.Alloc? {
      QueueingReplied(s, step);
    } else {
      RepliedLooksAt(s, SystemApply(s, step));
    }
  }

  // ---------- Nothing is left out ----------

  ghost predicate TakenAt(names: seq<Origin>, a: int, t: Task, place: Place) {
    0 <= a < |names| && names[a].FromTask? && names[a].task == t && names[a].place == place
  }

  /** Task `t` has taken a number for `place`. */
  ghost predicate Taken(names: seq<Origin>, t: Task, place: Place) {
    exists a :: TakenAt(names, a, t, place)
  }

  /** It has taken one for every message of phase `ph`. */
  ghost predicate Completed(names: seq<Origin>, lists: Lists, t: Task, ph: Phase) {
    (t, ph) in lists ==> forall k: nat | k < |lists[(t, ph)]| :: Taken(names, t, Place(ph, k))
  }

  /**
   What a task must have done by the time it is at `place`: the previous message of the
   phase; the response, before the notifies bound after it; and, if it is strict, the
   notifies bound before.
   */
  ghost predicate Entitled(names: seq<Origin>, lists: Lists, t: Task, place: Place) {
    && (place.index > 0 ==> Taken(names, t, Place(place.phase, place.index - 1)))
    && (place.phase == AfterPhase ==> Completed(names, lists, t, ResponsePhase))
    && (place.phase != BeforePhase && t.strict ==> Completed(names, lists, t, BeforePhase))
  }

  ghost predicate JobEntitled(names: seq<Origin>, lists: Lists, x: Worker) {
    x.Sending? || x.Putting? ==> Entitled(names, lists, x.job.task, x.job.place)
  }

  ghost predicate OriginEntitled(names: seq<Origin>, lists: Lists, o: Origin) {
    o.FromTask? ==> Entitled(names, lists, o.task, o.place)
  }

  ghost predicate Gapless(s: System) {
    && (forall a | 0 <= a < |s.names| :: OriginEntitled(s.names, s.lists, s.names[a]))
    && (forall w | w in s.workers :: JobEntitled(s.names, s.lists, s.workers[w]))
  }

  lemma TakenGrows(names: seq<Origin>, o: Origin, t: Task, place: Place)
    requires Taken(names, t, place)
    ensures Taken(names + [o], t, place)
  {
    var a :| TakenAt(names, a, t, place);
    assert TakenAt(names + [o], a, t, place);
  }

  lemma EntitledGrows(names: seq<Origin>, lists: Lists, o: Origin, t: Task, place: Place)
    requires Entitled(names, lists, t, place)
    ensures Entitled(names + [o], lists, t, place)
  {
    forall pl | Taken(names, t, pl) ensures Taken(names + [o], t, pl) {
      TakenGrows(names, o, t, pl);
    }
  }

  /** A new list for phase `ph` of task `t` matters only to that task's later phases. */
  lemma EntitledListed(names: seq<Origin>, lists: Lists, t: Task, ph: Phase, items: seq<Bytes>, u: Task, place: Place)
    requires Entitled(names, lists, u, place)
    requires u == t ==> Rank(place.phase) <= Rank(ph)
    ensures Entitled(names, lists[(t, ph) := items], u, place)
  {
  }

  /** A task that has reached the end of a phase has taken a number for each of its messages. */
  lemma {:induction false} TakenDownTo(s: System, t: Task, ph: Phase, k: nat, j: nat)
    requires Gapless(s) && Taken(s.names, t, Place(ph, k)) && j <= k
    ensures Taken(s.names, t, Place(ph, j))
    decreases k
  {
    if j < k {
      var a :| TakenAt(s.names, a, t, Place(ph, k));
      assert OriginEntitled(s.names, s.lists, s.names[a]);
      TakenDownTo(s, t, ph, k - 1, j);
    }
  }

  lemma EndOfPhase(s: System, job: Job)
    requires Gapless(s) && Entitled(s.names, s.lists, job.task, job.place)
    requires job.place.index >= |Items(s, job)|
    ensures Completed(s.names, s.lists, job.task, job.place.phase)
  {
    forall k: nat | k < |Items(s, job)| ensures Taken(s.names, job.task, Place(job.place.phase, k)) {
      TakenDownTo(s, job.task, job.place.phase, job.place.index - 1, k);
    }
  }

  lemma GaplessLooksAt(s: System, t: System)
    requires Gapless(s) && t.names == s.names && t.lists == s.lists && t.workers == s.workers
    ensures Gapless(t)
  {
  }

  lemma WithWorkerGapless(s: System, w: nat, x: Worker)
    requires Gapless(s) && JobEntitled(s.names, s.lists, x)
    ensures Gapless(WithWorker(s, w, x))
  {
  }

  lemma EnterGapless(s: System, w: nat, job: Job, ph: Phase, items: seq<Bytes>)
    requires Gapless(s) && Disciplined(s) && w in s.workers && TaskOf(s.workers[w]) == Some(job.task)
    requires Behind(s.names, job.task, Place(ph, 0)) && Entitled(s.names, s.lists, job.task, Place(ph, 0))
    ensures Gapless(Enter(s, w, job, ph, items))
  {
    var t := Enter(s, w, job, ph, items);
    forall a | 0 <= a < |t.names| ensures OriginEntitled(t.names, t.lists, t.names[a]) {
      assert OriginEntitled(s.names, s.lists, s.names[a]);
      if s.names[a].FromTask? {
        EntitledListed(s.names, s.lists, job.task, ph, items, s.names[a].task, s.names[a].place);
      }
    }
    forall v | v in t.workers ensures JobEntitled(t.names, t.lists, t.workers[v]) {
      if v == w {
        EntitledListed(s.names, s.lists, job.task, ph, items, job.task, Place(ph, 0));
      } else if s.workers[v].Sending? || s.workers[v].Putting? {
        EntitledListed(s.names, s.lists, job.task, ph, items, s.workers[v].job.task, s.workers[v].job.place);
      }
    }
  }

  lemma NameGapless(s: System, o: Origin)
    requires Gapless(s) && OriginEntitled(s.names, s.lists, o)
    ensures Gapless(s.(names := s.names + [o]))
  {
    var t := s.(names := s.names + [o]);
    forall a | 0 <= a < |t.names| ensures OriginEntitled(t.names, t.lists, t.names[a]) {
      var x := t.names[a];
      assert a < |s.names| ==> x == s.names[a];
      assert OriginEntitled(s.names, s.lists, x);
      if x.FromTask? {
        EntitledGrows(s.names, s.lists, o, x.task, x.place);
      }
    }
    forall v | v in t.workers ensures JobEntitled(t.names, t.lists, t.workers[v]) {
      if s.workers[v].Sending? || s.workers[v].Putting? {
        EntitledGrows(s.names, s.lists, o, s.workers[v].job.task, s.workers[v].job.place);
      }
    }
  }

  lemma AllocGapless(s: System, w: nat, job: Job)
    requires Gapless(s) && w in s.workers && s.workers[w] == Sending(job) && job.place.index < |Items(s, job)|
    ensures Gapless(Allocated(s, w, job))
  {
    var o := FromTask(job.task, job.place, Items(s, job)[job.place.index]);
    assert JobEntitled(s.names, s.lists, s.workers[w]);
    var t := WithWorker(s, w, Putting(job, |s.names| + 1));
    WithWorkerGapless(s, w, Putting(job, |s.names| + 1));
    NameGapless(t, o);
    GaplessLooksAt(t.(names := t.names + [o]), Allocated(s, w, job));
  }

  lemma AdvancedGapless(s: System, w: nat, job: Job)
    requires Gapless(s) && Disciplined(s) && w in s.workers && s.workers[w] == Sending(job)
    requires job.place.index >= |Items(s, job)|
    ensures Gapless(MovedOn(s, w, job))
  {
    assert InStep(s.names, s.lists, s.workers[w]) && JobEntitled(s.names, s.lists, s.workers[w]);
    EndOfPhase(s, job);
    match job.place.phase
    case BeforePhase =>
      BehindNextPhase(s.names, job.task, job.place, ResponsePhase);
      EnterGapless(s, w, job, ResponsePhase, Responses(job.task, job.response));
    case ResponsePhase =>
      if !job.failed {
        var items := N.Payloads(N.Pending(s.ops, N.After, job.task.grid));
        BehindNextPhase(s.names, job.task, job.place, AfterPhase);
        EnterGapless(s, w, job, AfterPhase, items);
        GaplessLooksAt(Enter(s, w, job, AfterPhase, items), MovedOn(s, w, job));
      }
    case AfterPhase =>
  }

  lemma SettledGapless(s: System, w: nat, job: Job, n: nat, ok: bool)
    requires Gapless(s) && Disciplined(s) && w in s.workers && s.workers[w] == Putting(job, n)
    ensures Gapless(Settled(s, w, job, ok))
  {
    assert InStep(s.names, s.lists, s.workers[w]) && JobEntitled(s.names, s.lists, s.workers[w]);
    assert TakenAt(s.names, n - 1, job.task, job.place);
    if ok {
      WithWorkerGapless(s, w, Sending(job.(place := Next(job.place))));
    } else if job.place.phase == BeforePhase && !job.task.strict {
      BehindNextPhase(s.names, job.task, Next(job.place), ResponsePhase);
      EnterGapless(s, w, job, ResponsePhase, [job.response]);
    }
  }

  lemma CallingGapless(s: System, w: nat, job: Job, ph: Phase, items: seq<Bytes>)
    requires Gapless(s) && Disciplined(s) && w in s.workers && s.workers[w] == Calling(job.task)
    requires ph == BeforePhase || (ph == ResponsePhase && !job.task.strict)
    ensures Gapless(Enter(s, w, job, ph, items))
  {
    assert InStep(s.names, s.lists, s.workers[w]);
    EnterGapless(s, w, job, ph, items);
  }

  lemma WorkerStepGapless(s: System, step: SystemStep)
    requires Gapless(s) && Disciplined(s)
    requires SystemEnabled(s, step) && (step.Fail? || step.Fetch? || step.Put? || step.Advance?)
    ensures Gapless(SystemApply(s, step))
  {
    var x := s.workers[step.w];
    match step
    case Fail(w, error) =>
      var job := Job(x.task, Place(BeforePhase, 0), error, true);
      CallingGapless(s, w, job, ResponsePhase, [error]);
      GaplessLooksAt(Enter(s, w, job, ResponsePhase, [error]), SystemApply(s, step));
    case Fetch(w, response) =>
      var job := Job(x.task, Place(BeforePhase, 0), response, false);
      var items := N.Payloads(N.Pending(s.ops, N.Before, x.task.grid));
      CallingGapless(s, w, job, BeforePhase, items);
      GaplessLooksAt(Enter(s, w, job, BeforePhase, items), SystemApply(s, step));
    case Put(w, encoded, now, link, burst) =>
      if encoded {
        var t := Enqueued(s, x.n, now, link, burst);
        GaplessLooksAt(s, t);
        DisciplineLooksAt(s, t);
        SettledGapless(t, w, x.job, x.n, EnqueueOutcome(s.queue, x.n, link) == Accepted);
      } else {
        SettledGapless(s, w, x.job, x.n, false);
      }
    case Advance(w) => AdvancedGapless(s, w, x.job);
  }

  lemma GaplessStep(s: System, step: SystemStep)
    requires Gapless(s) && Disciplined(s) && SystemEnabled(s, step)
    ensures Gapless(SystemApply(s, step))
  {
    match step
    case Alloc(w) => AllocGapless(s, w, s.workers[w].job);
    case OtherAlloc(data) => NameGapless(s, Elsewhere(data));
    case Submit(_) => GaplessLooksAt(s, SystemApply(s, step));
    case Begin(_) =>
    case Call(_, _) =>
    case Skip(_) =>
    case OtherPut(_, _, _, _) => GaplessLooksAt(s, SystemApply(s, step));
    case OnQueue(_) => GaplessLooksAt(s, SystemApply(s, step));
    case OnNotifies(_) => GaplessLooksAt(s, SystemApply(s, step));
    case _ => WorkerStepGapless(s, step);
  }

  // ---------- Bracketing ----------

  ghost predicate SystemInvariant(s: System) {
    Labelled(s.queue, s.names) && Disciplined(s) && AllFetched(s) && AllReplied(s) && Gapless(s)
  }

  lemma InitialInvariant(s: System)
    requires Initial(s)
    ensures SystemInvariant(s)
  {
  }

  lemma SystemStepKeeps(s: System, step: SystemStep)
    requires SystemInvariant(s) && SystemEnabled(s, step)
    ensures SystemInvariant(SystemApply(s, step))
  {
    LabelsStep(s, step);
    DisciplinedStep(s, step);
    FetchedStep(s, step);
    RepliedStep(s, step);
    GaplessStep(s, step);
  }

  lemma {:induction false} SystemRun(states: seq<System>, steps: seq<SystemStep>, i: nat)
    requires IsSystemRun(states, steps) && Initial(states[0]) && i < |states|
    ensures SystemInvariant(states[i])
  {
    if i == 0 {
      InitialInvariant(states[0]);
    } else {
      SystemRun(states, steps, i - 1);
      assert SystemStepAt(states, steps, i - 1);
      SystemStepKeeps(states[i - 1], steps[i - 1]);
    }
  }

  /** The origin of the `p`th message on the first-transmission trace. */
  ghost function OriginOf(s: System, p: nat): Origin
    requires p < |s.queue.firsts|
  {
    var n := s.queue.firsts[p].msg.serverSeq;
    if 1 <= n <= |s.names| then s.names[n - 1] else Elsewhere(s.queue.firsts[p].msg.data)
  }

  /**
   Bracketing: under every interleaving, what has been transmitted of one task appears on
   the trace in program order: the notifies bound before its response, in the order in
   which they were bound, then the response, then the notifies bound after it. Each
   message carries the payload at its place, and each place is transmitted at most once.
   */
  lemma Bracketing(states: seq<System>, steps: seq<SystemStep>, i: nat, p: nat, q: nat)
    requires IsSystemRun(states, steps) && Initial(states[0]) && i < |states|
    requires p < q < |states[i].queue.firsts|
    ensures SystemInvariant(states[i])
    ensures var s := states[i];
            var a, b := OriginOf(s, p), OriginOf(s, q);
            a.FromTask? && b.FromTask? && a.task.id == b.task.id ==> Earlier(a.place, b.place)
  {
    SystemRun(states, steps, i);
  }

  /**
   The payload of a transmitted message is the one at its place in the task's list; the
   list holds what the task's own take returned, or the response to the task's own reply.
   */
  lemma PayloadProvenance(states: seq<System>, steps: seq<SystemStep>, i: nat, p: nat)
    requires IsSystemRun(states, steps) && Initial(states[0]) && i < |states| && p < |states[i].queue.firsts|
    ensures SystemInvariant(states[i])
    ensures var s := states[i];
            var o, data := OriginOf(s, p), s.queue.firsts[p].msg.data;
            o.FromTask? ==>
              var key := (o.task, o.place.phase);
              && key in s.lists && Provenance(s.ops, s.takes, key, s.lists[key])
              && o.place.index < |s.lists[key]| && s.lists[key][o.place.index] == data
              && (o.place.phase == ResponsePhase ==> o.task in s.replies && data == s.replies[o.task])
  {
    SystemRun(states, steps, i);
    if OriginOf(states[i], p).FromTask? {
      PayloadComesFrom(states[i], p);
    }
  }

  lemma PayloadComesFrom(s: System, p: nat)
    requires SystemInvariant(s) && p < |s.queue.firsts| && OriginOf(s, p).FromTask?
    ensures var o := OriginOf(s, p);
            var key := (o.task, o.place.phase);
            && key in s.lists && Provenance(s.ops, s.takes, key, s.lists[key])
            && o.place.index < |s.lists[key]| && s.lists[key][o.place.index] == s.queue.firsts[p].msg.data
            && (o.place.phase == ResponsePhase ==>
                  o.task in s.replies && s.queue.firsts[p].msg.data == s.replies[o.task])
  {
    assert NamedBy(s.names, s.queue.firsts[p].msg);
    assert Recorded(s.lists, OriginOf(s, p));
  }

  /** In `step` task `t` gets the response `r` from upstream, or the error `r` instead. */
  ghost predicate Gives(s: System, step: SystemStep, t: Task, r: Bytes) {
    && ((step.Fetch? && step.response == r) || (step.Fail? && step.error == r))
    && step.w in s.workers && s.workers[step.w] == Calling(t)
  }

  ghost predicate OnRecord(s: System, t: Task, r: Bytes) {
    t in s.replies && s.replies[t] == r
  }

  lemma OtherStepsReplyNothing(s: System, step: SystemStep)
    requires SystemEnabled(s, step) && !step.Fetch? && !step.Fail?
    ensures SystemApply(s, step).replies == s.replies
  {
    match step
    case Advance(w) => AdvancedEffect(s, w, s.workers[w].job);
    case Put(w, encoded, now, link, burst) =>
      var job, n := s.workers[w].job, s.workers[w].n;
      var t := if encoded then Enqueued(s, n, now, link, burst) else s;
      SettledEffect(t, w, job, encoded && EnqueueOutcome(s.queue, n, link) == Accepted);
    case _ =>
  }

  lemma ReplyStep(s: System, step: SystemStep, t: Task, r: Bytes)
    requires SystemEnabled(s, step) && AllReplied(s)
    ensures OnRecord(SystemApply(s, step), t, r) <==> OnRecord(s, t, r) || Gives(s, step, t, r)
  {
    if step.Fetch? || step.Fail? {
      assert ReplyKnown(s.replies, s.workers[step.w]);
      var reply := if step.Fetch? then step.response else step.error;
      assert SystemApply(s, step).replies == s.replies[s.workers[step.w].task := reply];
    } else {
      OtherStepsReplyNothing(s, step);
    }
  }

  /** The reply on record for a task is the one it got in a step of the run, and it gets only one. */
  lemma {:induction false} OneReply(states: seq<System>, steps: seq<SystemStep>, i: nat, t: Task, r: Bytes)
    requires IsSystemRun(states, steps) && Initial(states[0]) && i < |states|
    ensures OnRecord(states[i], t, r) <==> exists j | 0 <= j < i :: Gives(states[j], steps[j], t, r)
  {
    if i > 0 {
      OneReply(states, steps, i - 1, t, r);
      assert AllReplied(states[i - 1]) by {
        SystemRun(states, steps, i - 1);
      }
      assert SystemStepAt(states, steps, i - 1);
      ReplyStep(states[i - 1], steps[i - 1], t, r);
    }
  }

  /**
   Nothing is left out: a task that has taken a number for a message has taken one for
   every earlier message of the same phase; for the response, if the message is a notify
   bound after it; and, if it gives up when a before-notify fails, for all of those.
   */
  lemma NothingLeftOut(states: seq<System>, steps: seq<SystemStep>, i: nat, a: nat)
    requires IsSystemRun(states, steps) && Initial(states[0]) && i < |states| && a < |states[i].names|
    requires states[i].names[a].FromTask?
    ensures var s, o := states[i], states[i].names[a];
            && (forall k: nat | k < o.place.index :: Taken(s.names, o.task, Place(o.place.phase, k)))
            && (o.place.phase == AfterPhase ==> Completed(s.names, s.lists, o.task, ResponsePhase))
            && (o.place.phase != BeforePhase && o.task.strict ==> Completed(s.names, s.lists, o.task, BeforePhase))
  {
    SystemRun(states, steps, i);
    var s, o := states[i], states[i].names[a];
    assert OriginEntitled(s.names, s.lists, o) && TakenAt(s.names, a, o.task, o.place);
    forall k: nat | k < o.place.index ensures Taken(s.names, o.task, Place(o.place.phase, k)) {
      TakenDownTo(s, o.task, o.place.phase, o.place.index, k);
    }
  }
}
