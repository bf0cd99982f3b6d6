/** What becomes of a task: whether it answers, fetches its notifies, and what a failure ends. */
module TaskFates {
  import opened Common
  import opened QueueSpec
  import opened Workers
  import N = NotifySpec

  ghost predicate HasJob(s: System, w: nat, t: Task) {
    w in s.workers && (s.workers[w].Sending? || s.workers[w].Putting?) && s.workers[w].job.task == t
  }

  /** Some worker is sending for `t`. */
  ghost predicate Served(s: System, t: Task) {
    exists w :: HasJob(s, w, t)
  }

  // ---------- Steps that are not the task's own ----------

  /** `step` is taken by a worker that is sending for `t`. */
  ghost predicate OwnStep(s: System, step: SystemStep, t: Task) {
    (step.Alloc? || step.Put? || step.Advance?) && HasJob(s, step.w, t)
  }

  /** From `s` to `u` nothing changes for `t`. */
  ghost predicate SameFor(s: System, u: System, t: Task) {
    && (forall w :: HasJob(u, w, t) <==> HasJob(s, w, t))
    && (forall w | HasJob(s, w, t) :: HasJob(u, w, t) && u.workers[w].job == s.workers[w].job)
    && (forall ph :: (t, ph) in u.lists <==> (t, ph) in s.lists)
    && (forall ph :: (t, ph) in u.takes <==> (t, ph) in s.takes)
    && (t in s.replies ==> t in u.replies)
  }

  lemma EnterOther(s: System, w: nat, job: Job, ph: Phase, items: seq<Bytes>, t: Task)
    requires w in s.workers && !HasJob(s, w, t) && job.task != t
    ensures SameFor(s, Enter(s, w, job, ph, items), t)
  {
  }

  lemma WorkerOther(s: System, w: nat, x: Worker, t: Task)
    requires w in s.workers && !HasJob(s, w, t) && (x.Sending? || x.Putting? ==> x.job.task != t)
    ensures SameFor(s, WithWorker(s, w, x), t)
  {
  }

  lemma AdvancedOther(s: System, w: nat, job: Job, t: Task)
    requires w in s.workers && !HasJob(s, w, t) && job.task != t
    ensures SameFor(s, MovedOn(s, w, job), t)
  {
    match job.place.phase
    case BeforePhase => EnterOther(s, w, job, ResponsePhase, Responses(job.task, job.response), t);
    case ResponsePhase =>
      if job.failed {
        WorkerOther(s, w, Idle, t);
      } else {
        EnterOther(s, w, job, AfterPhase, N.Payloads(N.Pending(s.ops, N.After, job.task.grid)), t);
      }
    case AfterPhase => WorkerOther(s, w, Idle, t);
  }

  lemma SettledOther(s: System, w: nat, job: Job, ok: bool, t: Task)
    requires w in s.workers && !HasJob(s, w, t) && job.task != t
    ensures SameFor(s, Settled(s, w, job, ok), t)
  {
    if ok {
      WorkerOther(s, w, Sending(job.(place := Next(job.place))), t);
    } else if job.place.phase == BeforePhase && !job.task.strict {
      EnterOther(s, w, job, ResponsePhase, Responses(job.task, job.response), t);
    } else {
      WorkerOther(s, w, Idle, t);
    }
  }

  lemma PutOther(s: System, step: SystemStep, t: Task)
    requires SystemEnabled(s, step) && step.Put? && !HasJob(s, step.w, t)
    ensures SameFor(s, SystemApply(s, step), t)
  {
    var w, job, n := step.w, s.workers[step.w].job, s.workers[step.w].n;
    var u := if step.encoded then Enqueued(s, n, step.now, step.link, step.burst) else s;
    SettledOther(u, w, job, step.encoded && EnqueueOutcome(s.queue, n, step.link) == Accepted, t);
  }

  /** A task that has got its reply is not touched by the arrival of another's. */
  lemma ReplyOther(s: System, step: SystemStep, t: Task)
    requires SystemEnabled(s, step) && AllReplied(s) && t in s.replies && (step.Fetch? || step.Fail?)
    ensures SameFor(s, SystemApply(s, step), t)
  {
    assert ReplyKnown(s.replies, s.workers[step.w]);
    var u := s.workers[step.w].task;
    assert u != t;
    match step
    case Fetch(w, response) =>
      var job := Job(u, Place(BeforePhase, 0), response, false);
      EnterOther(Replied(s, u, response), w, job, BeforePhase, N.Payloads(N.Pending(s.ops, N.Before, u.grid)), t);
    case Fail(w, error) =>
      EnterOther(Replied(s, u, error), w, Job(u, Place(BeforePhase, 0), error, true), ResponsePhase, [error], t);
  }

  lemma StepOfOther(s: System, step: SystemStep, t: Task)
    requires SystemEnabled(s, step) && AllReplied(s) && t in s.replies && !OwnStep(s, step, t)
    ensures SameFor(s, SystemApply(s, step), t)
  {
    match step
    case Fetch(_, _) => ReplyOther(s, step, t);
    case Fail(_, _) => ReplyOther(s, step, t);
    case Put(_, _, _, _, _) => PutOther(s, step, t);
    case Advance(w) => AdvancedOther(s, w, s.workers[w].job, t);
    case Alloc(w) => WorkerOther(s, w, Putting(s.workers[w].job, |s.names| + 1), t);
    case Begin(w) => WorkerOther(s, w, Calling(s.channel[0]), t);
    case Call(w, grid) => WorkerOther(s, w, Calling(Task(s.nextTask, grid, true)), t);
    case Skip(w) => WorkerOther(s, w, Idle, t);
    case _ =>
  }

  // ---------- Nothing without a reply ----------

  /** What a task has set out to send, or fetched, it did after its reply; and what it fetched it set out to send. */
  ghost predicate RepliedFirst(s: System) {
    && (forall key | key in s.lists :: key.0 in s.replies)
    && (forall key | key in s.takes :: key in s.lists)
  }

  lemma EnterRepliedFirst(s: System, w: nat, job: Job, ph: Phase, items: seq<Bytes>)
    requires RepliedFirst(s) && job.task in s.replies
    ensures RepliedFirst(Enter(s, w, job, ph, items))
  {
  }

  lemma RepliedFirstLooksAt(s: System, t: System)
    requires RepliedFirst(s) && t.lists == s.lists && t.takes == s.takes && s.replies.Keys <= t.replies.Keys
    ensures RepliedFirst(t)
  {
  }

  lemma AdvancedRepliedFirst(s: System, w: nat, job: Job)
    requires RepliedFirst(s) && job.task in s.replies
    ensures RepliedFirst(MovedOn(s, w, job))
  {
    match job.place.phase
    case BeforePhase => EnterRepliedFirst(s, w, job, ResponsePhase, Responses(job.task, job.response));
    case ResponsePhase =>
      if !job.failed {
        EnterRepliedFirst(s, w, job, AfterPhase, N.Payloads(N.Pending(s.ops, N.After, job.task.grid)));
      }
    case AfterPhase =>
  }

  lemma WorkerStepRepliedFirst(s: System, step: SystemStep)
    requires RepliedFirst(s) && AllReplied(s) && SystemEnabled(s, step)
    requires step.Fail? || step.Fetch? || step.Put? || step.Advance?
    ensures RepliedFirst(SystemApply(s, step))
  {
    var x := s.workers[step.w];
    assert ReplyKnown(s.replies, x);
    match step
    case Fail(w, error) =>
      var job := Job(x.task, Place(BeforePhase, 0), error, true);
      EnterRepliedFirst(Replied(s, x.task, error), w, job, ResponsePhase, [error]);
    case Fetch(w, response) =>
      var job := Job(x.task, Place(BeforePhase, 0), response, false);
      var items := N.Payloads(N.Pending(s.ops, N.Before, x.task.grid));
      EnterRepliedFirst(Replied(s, x.task, response), w, job, BeforePhase, items);
    case Put(w, encoded, now, link, burst) =>
      EnterRepliedFirst(s, w, x.job, ResponsePhase, Responses(x.job.task, x.job.response));
    case Advance(w) => AdvancedRepliedFirst(s, w, x.job);
  }

  lemma RepliedFirstStep(s: System, step: SystemStep)
    requires RepliedFirst(s) && AllReplied(s) && SystemEnabled(s, step)
    ensures RepliedFirst(SystemApply(s, step))
  {
    if step.Fail? || step.Fetch? || step.Put? || step.Advance? {
      WorkerStepRepliedFirst(s, step);
    } else {
      RepliedFirstLooksAt(s, SystemApply(s, step));
    }
  }

  lemma {:induction false} RepliedFirstRun(states: seq<System>, steps: seq<SystemStep>, i: nat)
    requires IsSystemRun(states, steps) && Initial(states[0]) && i < |states|
    ensures RepliedFirst(states[i])
  {
    if i > 0 {
      RepliedFirstRun(states, steps, i - 1);
      assert AllReplied(states[i - 1]) by {
        SystemRun(states, steps, i - 1);
      }
      assert SystemStepAt(states, steps, i - 1);
      RepliedFirstStep(states[i - 1], steps[i - 1]);
    }
  }

  /** A task takes numbers only once it has its reply, and a strict one never takes a number for an empty response. */
  lemma NothingWithoutReply(states: seq<System>, steps: seq<SystemStep>, i: nat, a: nat)
    requires IsSystemRun(states, steps) && Initial(states[0]) && i < |states|
    requires a < |states[i].names| && states[i].names[a].FromTask?
    ensures var o := states[i].names[a];
            && (exists j, r :: 0 <= j < i && Gives(states[j], steps[j], o.task, r))
            && (o.place.phase == ResponsePhase && o.task.strict ==> o.data != [])
  {
    var s, o := states[i], states[i].names[a];
    SystemRun(states, steps, i);
    RepliedFirstRun(states, steps, i);
    assert Recorded(s.lists, o) && (o.task, o.place.phase) in s.lists;
    OneReply(states, steps, i, o.task, s.replies[o.task]);
    assert OnRecord(s, o.task, s.replies[o.task]);
  }

  // ---------- Tasks that fetched ----------

  /** `t` has fetched what is bound before its response; wherever it is in its program, it has begun all it should. */
  ghost predicate FetchedTask(s: System, t: Task) {
    && t in s.replies && (t, BeforePhase) in s.takes
    && (forall w | HasJob(s, w, t) :: HasBegun(s, t, s.workers[w].job))
  }

  ghost predicate HasBegun(s: System, t: Task, job: Job) {
    && !job.failed
    && (job.place.phase != BeforePhase ==> (t, ResponsePhase) in s.lists)
    && (job.place.phase == AfterPhase ==> (t, AfterPhase) in s.takes)
  }

  /** It has set out to send its response, and fetched what is bound after it. */
  ghost predicate WentThrough(s: System, t: Task) {
    (t, ResponsePhase) in s.lists && (t, AfterPhase) in s.takes
  }

  lemma SameForFetched(s: System, u: System, t: Task)
    requires FetchedTask(s, t) && SameFor(s, u, t)
    ensures FetchedTask(u, t) && (Served(s, t) ==> Served(u, t)) && (WentThrough(s, t) ==> WentThrough(u, t))
    ensures (t, ResponsePhase) in s.lists ==> (t, ResponsePhase) in u.lists
  {
    if Served(s, t) {
      var w :| HasJob(s, w, t);
      assert HasJob(u, w, t);
    }
  }

  /** No other worker is sending for `t`. */
  ghost predicate OnlyWorker(s: System, w: nat, t: Task) {
    forall v | v != w :: !HasJob(s, v, t)
  }

  lemma OneWorker(s: System, w: nat, t: Task)
    requires Disciplined(s) && w in s.workers && TaskOf(s.workers[w]) == Some(t)
    ensures OnlyWorker(s, w, t)
  {
    forall v | v != w ensures !HasJob(s, v, t) {
      if v in s.workers && (s.workers[v].Sending? || s.workers[v].Putting?) {
        assert TaskOf(s.workers[v]).Some? && TaskOf(s.workers[w]).Some?;
      }
    }
  }

  lemma EnterOwn(s: System, w: nat, job: Job, ph: Phase, items: seq<Bytes>, t: Task)
    requires job.task == t && OnlyWorker(s, w, t)
    ensures var u := Enter(s, w, job, ph, items);
            HasJob(u, w, t) && OnlyWorker(u, w, t) && u.workers[w].job == job.(place := Place(ph, 0))
  {
    var u := Enter(s, w, job, ph, items);
    forall v | v != w ensures !HasJob(u, v, t) {
      assert !HasJob(s, v, t);
    }
  }

  lemma AdvancedFetchedTask(s: System, w: nat, job: Job, t: Task)
    requires FetchedTask(s, t) && OnlyWorker(s, w, t) && HasJob(s, w, t) && s.workers[w].job == job
    requires (t, job.place.phase) in s.lists
    ensures FetchedTask(MovedOn(s, w, job), t)
    ensures Served(MovedOn(s, w, job), t) || WentThrough(MovedOn(s, w, job), t)
  {
    assert HasBegun(s, t, s.workers[w].job);
    match job.place.phase
    case BeforePhase =>
      EnterOwn(s, w, job, ResponsePhase, Responses(job.task, job.response), t);
      assert HasJob(MovedOn(s, w, job), w, t);
    case ResponsePhase =>
      var items := N.Payloads(N.Pending(s.ops, N.After, job.task.grid));
      EnterOwn(s, w, job, AfterPhase, items, t);
      assert HasJob(MovedOn(s, w, job), w, t);
    case AfterPhase =>
  }

  /** A put that fails before the response leaves a task that is not strict with its response to send. */
  lemma SettledFetchedTask(s: System, w: nat, job: Job, ok: bool, t: Task)
    requires FetchedTask(s, t) && OnlyWorker(s, w, t) && HasJob(s, w, t) && s.workers[w].job == job
    ensures var u := Settled(s, w, job, ok);
            && FetchedTask(u, t) && (WentThrough(s, t) ==> WentThrough(u, t))
            && (ok ==> Served(u, t))
            && (!t.strict ==> Served(u, t) || (t, ResponsePhase) in u.lists)
            && ((t, ResponsePhase) in s.lists ==> (t, ResponsePhase) in u.lists)
  {
    assert HasBegun(s, t, s.workers[w].job);
    var u := Settled(s, w, job, ok);
    if ok {
      assert HasJob(u, w, t);
    } else if job.place.phase == BeforePhase && !t.strict {
      EnterOwn(s, w, job, ResponsePhase, Responses(job.task, job.response), t);
    }
  }

  /** What `t` has to show for itself in any run, and in one in which no put fails. */
  ghost predicate Answers(s: System, t: Task) {
    Served(s, t) || (t, ResponsePhase) in s.lists
  }

  ghost predicate GoesThrough(s: System, t: Task) {
    Served(s, t) || WentThrough(s, t)
  }

  lemma OwnAllocFetched(s: System, w: nat, t: Task)
    requires FetchedTask(s, t) && HasJob(s, w, t) && SystemEnabled(s, Alloc(w))
    ensures FetchedTask(SystemApply(s, Alloc(w)), t) && Served(SystemApply(s, Alloc(w)), t)
  {
    var u := SystemApply(s, Alloc(w));
    assert HasJob(u, w, t);
    forall v | HasJob(u, v, t) ensures HasBegun(u, t, u.workers[v].job) {
      assert HasJob(s, v, t);
    }
  }

  lemma OwnPutFetched(s: System, step: SystemStep, t: Task)
    requires Disciplined(s) && SystemEnabled(s, step) && step.Put? && FetchedTask(s, t) && HasJob(s, step.w, t)
    ensures var u := SystemApply(s, step);
            && FetchedTask(u, t) && (!t.strict ==> Answers(u, t))
            && (step.encoded && EnqueueOutcome(s.queue, s.workers[step.w].n, step.link) == Accepted ==> Served(u, t))
  {
    var w, job, n := step.w, s.workers[step.w].job, s.workers[step.w].n;
    var u := if step.encoded then Enqueued(s, n, step.now, step.link, step.burst) else s;
    OneWorker(s, w, t);
    QueueDoesNotMatter(s, u, t, w);
    SettledFetchedTask(u, w, job, step.encoded && EnqueueOutcome(s.queue, n, step.link) == Accepted, t);
  }

  lemma QueueDoesNotMatter(s: System, u: System, t: Task, w: nat)
    requires FetchedTask(s, t) && OnlyWorker(s, w, t) && HasJob(s, w, t)
    requires u.workers == s.workers && u.lists == s.lists && u.takes == s.takes && u.replies == s.replies
    ensures FetchedTask(u, t) && OnlyWorker(u, w, t) && HasJob(u, w, t)
  {
    forall v | HasJob(u, v, t) ensures HasBegun(u, t, u.workers[v].job) {
      assert HasJob(s, v, t);
    }
    forall v | v != w ensures !HasJob(u, v, t) {
      assert !HasJob(s, v, t);
    }
  }

  lemma OwnAdvanceFetched(s: System, w: nat, t: Task)
    requires Disciplined(s) && SystemEnabled(s, Advance(w)) && FetchedTask(s, t) && HasJob(s, w, t)
    ensures FetchedTask(SystemApply(s, Advance(w)), t) && GoesThrough(SystemApply(s, Advance(w)), t)
  {
    OneWorker(s, w, t);
    assert InStep(s.names, s.lists, s.workers[w]);
    AdvancedFetchedTask(s, w, s.workers[w].job, t);
  }

  lemma FetchedTaskStep(s: System, step: SystemStep, t: Task)
    requires Disciplined(s) && AllReplied(s) && SystemEnabled(s, step) && FetchedTask(s, t)
    ensures FetchedTask(SystemApply(s, step), t)
    ensures !t.strict && Answers(s, t) ==> Answers(SystemApply(s, step), t)
    ensures GoesThrough(s, t)
            && (step.Put? ==> step.encoded && EnqueueOutcome(s.queue, s.workers[step.w].n, step.link) == Accepted) ==>
              GoesThrough(SystemApply(s, step), t)
  {
    if !OwnStep(s, step, t) {
      StepOfOther(s, step, t);
      SameForFetched(s, SystemApply(s, step), t);
    } else if step.Alloc? {
      OwnAllocFetched(s, step.w, t);
    } else if step.Put? {
      OwnPutFetched(s, step, t);
    } else {
      OwnAdvanceFetched(s, step.w, t);
    }
  }

  /** In a `Fetch` step the task begins. */
  lemma FetchBegins(s: System, step: SystemStep, t: Task)
    requires Disciplined(s) && AllReplied(s) && RepliedFirst(s) && SystemEnabled(s, step)
    requires step.Fetch? && s.workers[step.w] == Calling(t)
    ensures FetchedTask(SystemApply(s, step), t) && Served(SystemApply(s, step), t)
  {
    var u := SystemApply(s, step);
    assert HasJob(u, step.w, t);
    OneWorker(s, step.w, t);
    forall v | v != step.w ensures !HasJob(u, v, t) {
      assert !HasJob(s, v, t);
    }
  }

  /** In any run, whatever fails, a task that fetched stays on record, and one that is not strict answers. */
  lemma {:induction false} FetchedRun(states: seq<System>, steps: seq<SystemStep>, j: nat, i: nat, t: Task)
    requires IsSystemRun(states, steps) && Initial(states[0]) && j < i < |states|
    requires steps[j].Fetch? && steps[j].w in states[j].workers && states[j].workers[steps[j].w] == Calling(t)
    ensures FetchedTask(states[i], t) && (!t.strict ==> Answers(states[i], t))
    decreases i
  {
    assert Disciplined(states[i - 1]) && AllReplied(states[i - 1]) by {
      SystemRun(states, steps, i - 1);
    }
    assert SystemStepAt(states, steps, i - 1);
    if j == i - 1 {
      RepliedFirstRun(states, steps, j);
      FetchBegins(states[j], steps[j], t);
    } else {
      FetchedRun(states, steps, j, i - 1, t);
      FetchedTaskStep(states[i - 1], steps[i - 1], t);
    }
  }

  // ---------- Tasks that got an error, and failures ----------

  /** How far a phase is; 3 is the end of a task. */
  function Stage(ph: Phase): nat {
    Rank(ph)
  }

  /** Task `t` is past the phases before stage `r`, and will not come back to them. */
  ghost predicate Past(s: System, t: Task, r: nat) {
    && t in s.replies
    && forall w | HasJob(s, w, t) :: Stage(s.workers[w].job.place.phase) >= r
  }

  lemma SameForPast(s: System, u: System, t: Task, r: nat)
    requires Past(s, t, r) && SameFor(s, u, t)
    ensures Past(u, t, r)
  {
  }

  lemma OwnStepPast(s: System, step: SystemStep, t: Task, r: nat)
    requires Disciplined(s) && SystemEnabled(s, step) && Past(s, t, r) && OwnStep(s, step, t)
    ensures Past(SystemApply(s, step), t, r)
  {
    OneWorker(s, step.w, t);
    var u := SystemApply(s, step);
    OwnReplyStays(s, step, t);
    forall w | HasJob(u, w, t) ensures Stage(u.workers[w].job.place.phase) >= r {
      OwnStepMovesOn(s, step, t, w);
    }
  }

  lemma OwnReplyStays(s: System, step: SystemStep, t: Task)
    requires SystemEnabled(s, step) && t in s.replies && (step.Alloc? || step.Put? || step.Advance?)
    ensures t in SystemApply(s, step).replies
  {
    OtherStepsReplyNothing(s, step);
  }

  lemma PutMovesOn(s: System, step: SystemStep, t: Task, w: nat)
    requires SystemEnabled(s, step) && step.Put? && HasJob(s, step.w, t) && OnlyWorker(s, step.w, t)
    requires HasJob(SystemApply(s, step), w, t)
    ensures w == step.w
    ensures Stage(SystemApply(s, step).workers[w].job.place.phase) >= Stage(s.workers[w].job.place.phase)
  {
    var job, n := s.workers[step.w].job, s.workers[step.w].n;
    var u := if step.encoded then Enqueued(s, n, step.now, step.link, step.burst) else s;
    forall v | v != step.w ensures !HasJob(u, v, t) {
      assert !HasJob(s, v, t);
    }
    SettledMovesOn(u, step.w, job, step.encoded && EnqueueOutcome(s.queue, n, step.link) == Accepted, t, w);
  }

  lemma AllocMovesOn(s: System, step: SystemStep, t: Task, w: nat)
    requires SystemEnabled(s, step) && step.Alloc? && HasJob(s, step.w, t) && OnlyWorker(s, step.w, t)
    requires HasJob(SystemApply(s, step), w, t)
    ensures w == step.w && SystemApply(s, step).workers[w].job == s.workers[w].job
  {
    if w != step.w {
      assert HasJob(s, w, t);
    }
  }

  /** A worker that steps for `t` does not go back. */
  lemma OwnStepMovesOn(s: System, step: SystemStep, t: Task, w: nat)
    requires SystemEnabled(s, step) && OwnStep(s, step, t) && OnlyWorker(s, step.w, t)
    requires HasJob(SystemApply(s, step), w, t)
    ensures w == step.w
    ensures Stage(SystemApply(s, step).workers[w].job.place.phase) >= Stage(s.workers[w].job.place.phase)
  {
    match step
    case Alloc(_) => AllocMovesOn(s, step, t, w);
    case Put(_, _, _, _, _) => PutMovesOn(s, step, t, w);
    case Advance(_) => MovedOnMovesOn(s, step.w, s.workers[step.w].job, t, w);
  }

  lemma SettledMovesOn(s: System, v: nat, job: Job, ok: bool, t: Task, w: nat)
    requires HasJob(s, v, t) && s.workers[v].job == job && OnlyWorker(s, v, t) && HasJob(Settled(s, v, job, ok), w, t)
    ensures w == v
    ensures Stage(Settled(s, v, job, ok).workers[w].job.place.phase) >= Stage(job.place.phase)
    ensures !ok ==> Stage(Settled(s, v, job, ok).workers[w].job.place.phase) > Stage(job.place.phase)
    ensures !ok ==> job.place.phase == BeforePhase && !t.strict
  {
    if w != v {
      assert HasJob(s, w, t);
    }
  }

  lemma MovedOnMovesOn(s: System, v: nat, job: Job, t: Task, w: nat)
    requires HasJob(s, v, t) && s.workers[v].job == job && OnlyWorker(s, v, t) && HasJob(MovedOn(s, v, job), w, t)
    ensures w == v
    ensures Stage(MovedOn(s, v, job).workers[w].job.place.phase) > Stage(job.place.phase)
  {
    OnlyOneMoves(s, v, job);
    if w != v {
      assert HasJob(s, w, t);
    }
  }

  /** Of the workers only `v` changes, and it goes on with a later phase or is done. */
  lemma OnlyOneMoves(s: System, v: nat, job: Job)
    requires v in s.workers
    ensures var u := MovedOn(s, v, job);
            && (forall x | x != v && x in u.workers :: x in s.workers && u.workers[x] == s.workers[x])
            && v in u.workers
            && (u.workers[v].Idle?
                || (u.workers[v].Sending? && Stage(u.workers[v].job.place.phase) > Stage(job.place.phase)))
  {
    match job.place.phase
    case BeforePhase =>
    case ResponsePhase =>
    case AfterPhase =>
  }

  lemma PastStep(s: System, step: SystemStep, t: Task, r: nat)
    requires Disciplined(s) && AllReplied(s) && SystemEnabled(s, step) && Past(s, t, r)
    ensures Past(SystemApply(s, step), t, r)
    ensures forall a | |s.names| <= a < |SystemApply(s, step).names| :: LateName(SystemApply(s, step).names[a], t, r)
  {
    if OwnStep(s, step, t) {
      OwnStepPast(s, step, t, r);
    } else {
      StepOfOther(s, step, t);
      SameForPast(s, SystemApply(s, step), t, r);
    }
    NewNames(s, step);
  }

  /** A number taken for `t`, if at all, in stage `r` or later. */
  ghost predicate LateName(o: Origin, t: Task, r: nat) {
    o.FromTask? && o.task == t ==> Stage(o.place.phase) >= r
  }

  /** Numbers are taken by workers for their jobs, or by others. */
  lemma NewNames(s: System, step: SystemStep)
    requires SystemEnabled(s, step)
    ensures s.names <= SystemApply(s, step).names
    ensures forall a | |s.names| <= a < |SystemApply(s, step).names| ::
              var o := SystemApply(s, step).names[a];
              o.FromTask? ==>
                step.Alloc? && o.task == s.workers[step.w].job.task && o.place == s.workers[step.w].job.place
  {
    match step
    case Put(w, encoded, now, link, burst) =>
      var job, n := s.workers[w].job, s.workers[w].n;
      SettledEffect(if encoded then Enqueued(s, n, now, link, burst) else s, w, job,
                    encoded && EnqueueOutcome(s.queue, n, link) == Accepted);
    case Alloc(_) =>
    case OtherAlloc(_) =>
    case OtherPut(_, _, _, _) =>
    case OnQueue(_) =>
    case _ => QuietSteps(s, step);
  }

  lemma {:induction false} PastRun(states: seq<System>, steps: seq<SystemStep>, j: nat, i: nat, t: Task, r: nat)
    requires IsSystemRun(states, steps) && Initial(states[0]) && j <= i < |states| && Past(states[j], t, r)
    ensures Past(states[i], t, r) && states[j].names <= states[i].names
    ensures forall a | |states[j].names| <= a < |states[i].names| :: LateName(states[i].names[a], t, r)
    decreases i
  {
    if j < i {
      PastRun(states, steps, j, i - 1, t, r);
      assert Disciplined(states[i - 1]) && AllReplied(states[i - 1]) by {
        SystemRun(states, steps, i - 1);
      }
      assert SystemStepAt(states, steps, i - 1);
      PastStep(states[i - 1], steps[i - 1], t, r);
      NewNames(states[i - 1], steps[i - 1]);
      forall a | |states[j].names| <= a < |states[i].names| ensures LateName(states[i].names[a], t, r) {
        assert a < |states[i - 1].names| ==> states[i].names[a] == states[i - 1].names[a];
      }
    }
  }

  /** The put of step `j`, for the message at `place` of `t`, fails: it does not encode, or is not accepted. */
  ghost predicate PutFails(s: System, step: SystemStep, t: Task, place: Place) {
    && step.Put? && step.w in s.workers && s.workers[step.w].Putting?
    && s.workers[step.w].job.task == t && s.workers[step.w].job.place == place
    && !(step.encoded && EnqueueOutcome(s.queue, s.workers[step.w].n, step.link) == Accepted)
  }

  lemma FailedPutPast(s: System, step: SystemStep, t: Task, place: Place)
    requires Disciplined(s) && AllReplied(s) && SystemEnabled(s, step) && PutFails(s, step, t, place)
    ensures Past(SystemApply(s, step), t, if place.phase == BeforePhase && !t.strict then 1 else 3)
  {
    var w, job, n := step.w, s.workers[step.w].job, s.workers[step.w].n;
    var u := if step.encoded then Enqueued(s, n, step.now, step.link, step.burst) else s;
    assert ReplyKnown(s.replies, s.workers[w]) && HasJob(s, w, t);
    OneWorker(s, w, t);
    OwnReplyStays(s, step, t);
    forall v | v != w ensures !HasJob(u, v, t) {
      assert !HasJob(s, v, t);
    }
    forall v | HasJob(SystemApply(s, step), v, t)
      ensures Stage(SystemApply(s, step).workers[v].job.place.phase) >=
              if place.phase == BeforePhase && !t.strict then 1 else 3
    {
      SettledMovesOn(u, w, job, false, t, v);
    }
  }

  /**
   A put that fails ends the phase: a task that is not strict, and had not come to its
   response, takes no further number for a notify bound before it; any other task takes no
   further number at all.
   */
  lemma FailureEnds(states: seq<System>, steps: seq<SystemStep>, j: nat, i: nat, t: Task, place: Place)
    requires IsSystemRun(states, steps) && Initial(states[0]) && j < i < |states|
    requires PutFails(states[j], steps[j], t, place)
    ensures states[j].names <= states[i].names
    ensures forall a | |states[j].names| <= a < |states[i].names| && states[i].names[a].FromTask? ::
              states[i].names[a].task == t ==>
                place.phase == BeforePhase && !t.strict && states[i].names[a].place.phase != BeforePhase
  {
    assert Disciplined(states[j]) && AllReplied(states[j]) by {
      SystemRun(states, steps, j);
    }
    assert SystemStepAt(states, steps, j);
    FailedPutPast(states[j], steps[j], t, place);
    OtherNamesStay(states[j], steps[j]);
    var r := if place.phase == BeforePhase && !t.strict then 1 else 3;
    PastRun(states, steps, j + 1, i, t, r);
    forall a | |states[j].names| <= a < |states[i].names|
               && states[i].names[a].FromTask? && states[i].names[a].task == t
      ensures place.phase == BeforePhase && !t.strict && states[i].names[a].place.phase != BeforePhase
    {
      assert LateName(states[i].names[a], t, r);
    }
  }

  lemma OtherNamesStay(s: System, step: SystemStep)
    requires SystemEnabled(s, step) && step.Put?
    ensures SystemApply(s, step).names == s.names
  {
    var job, n := s.workers[step.w].job, s.workers[step.w].n;
    SettledEffect(if step.encoded then Enqueued(s, n, step.now, step.link, step.burst) else s, step.w, job,
                  step.encoded && EnqueueOutcome(s.queue, n, step.link) == Accepted);
  }

  /** `t` got an error: it sends that, and fetches nothing. */
  ghost predicate ErrorTask(s: System, t: Task) {
    && t in s.replies && (t, ResponsePhase) in s.lists && (t, BeforePhase) !in s.takes && (t, AfterPhase) !in s.takes
    && forall w | HasJob(s, w, t) :: SendsError(s.workers[w].job)
  }

  ghost predicate SendsError(job: Job) {
    job.failed && job.place.phase == ResponsePhase
  }

  lemma SameForError(s: System, u: System, t: Task)
    requires ErrorTask(s, t) && SameFor(s, u, t)
    ensures ErrorTask(u, t)
  {
  }

  lemma OwnErrorStep(s: System, step: SystemStep, t: Task)
    requires Disciplined(s) && SystemEnabled(s, step) && ErrorTask(s, t) && OwnStep(s, step, t)
    ensures ErrorTask(SystemApply(s, step), t)
  {
    OneWorker(s, step.w, t);
    OwnReplyStays(s, step, t);
    assert SendsError(s.workers[step.w].job);
    forall v | v != step.w ensures !HasJob(SystemApply(s, step), v, t) {
      OwnStepElsewhere(s, step, t, v);
    }
    match step
    case Alloc(_) =>
    case Put(_, _, _, _, _) =>
    case Advance(_) =>
  }

  lemma OwnStepElsewhere(s: System, step: SystemStep, t: Task, v: nat)
    requires SystemEnabled(s, step) && OwnStep(s, step, t) && OnlyWorker(s, step.w, t) && v != step.w
    ensures !HasJob(SystemApply(s, step), v, t)
  {
    if HasJob(SystemApply(s, step), v, t) {
      OwnStepMovesOn(s, step, t, v);
    }
  }

  lemma ErrorStep(s: System, step: SystemStep, t: Task)
    requires Disciplined(s) && AllReplied(s) && SystemEnabled(s, step) && ErrorTask(s, t)
    ensures ErrorTask(SystemApply(s, step), t)
  {
    if OwnStep(s, step, t) {
      OwnErrorStep(s, step, t);
    } else {
      StepOfOther(s, step, t);
      SameForError(s, SystemApply(s, step), t);
    }
  }

  lemma FailBegins(s: System, step: SystemStep, t: Task)
    requires Disciplined(s) && AllReplied(s) && RepliedFirst(s) && SystemEnabled(s, step)
    requires step.Fail? && s.workers[step.w] == Calling(t)
    ensures ErrorTask(SystemApply(s, step), t)
  {
    var u := SystemApply(s, step);
    assert ReplyKnown(s.replies, s.workers[step.w]);
    OneWorker(s, step.w, t);
    forall v | v != step.w ensures !HasJob(u, v, t) {
      assert !HasJob(s, v, t);
    }
  }

  lemma {:induction false} ErrorRun(states: seq<System>, steps: seq<SystemStep>, j: nat, i: nat, t: Task)
    requires IsSystemRun(states, steps) && Initial(states[0]) && j < i < |states|
    requires steps[j].Fail? && steps[j].w in states[j].workers && states[j].workers[steps[j].w] == Calling(t)
    ensures ErrorTask(states[i], t)
    decreases i
  {
    assert Disciplined(states[i - 1]) && AllReplied(states[i - 1]) by {
      SystemRun(states, steps, i - 1);
    }
    assert SystemStepAt(states, steps, i - 1);
    if j == i - 1 {
      RepliedFirstRun(states, steps, j);
      FailBegins(states[j], steps[j], t);
    } else {
      ErrorRun(states, steps, j, i - 1, t);
      ErrorStep(states[i - 1], steps[i - 1], t);
    }
  }

  /**
   A task that gets an error from upstream sends that and nothing else: it fetches no
   notifies, and takes numbers only for its error response.
   */
  lemma ErrorStandsAlone(states: seq<System>, steps: seq<SystemStep>, j: nat, i: nat, t: Task)
    requires IsSystemRun(states, steps) && Initial(states[0]) && j < i < |states|
    requires steps[j].Fail? && steps[j].w in states[j].workers && states[j].workers[steps[j].w] == Calling(t)
    ensures (t, BeforePhase) !in states[i].takes && (t, AfterPhase) !in states[i].takes
    ensures (t, ResponsePhase) in states[i].lists && states[i].lists[(t, ResponsePhase)] == [steps[j].error]
    ensures forall a | 0 <= a < |states[i].names| && states[i].names[a].FromTask? && states[i].names[a].task == t ::
              states[i].names[a].place == Place(ResponsePhase, 0) && states[i].names[a].data == steps[j].error
  {
    var s := states[i];
    ErrorRun(states, steps, j, i, t);
    SystemRun(states, steps, i);
    assert SystemStepAt(states, steps, j);
    assert Gives(states[j], steps[j], t, steps[j].error);
    OneReply(states, steps, i, t, steps[j].error);
    forall a | 0 <= a < |s.names| && s.names[a].FromTask? && s.names[a].task == t
      ensures s.names[a].place == Place(ResponsePhase, 0) && s.names[a].data == steps[j].error
    {
      ErrorName(s, t, a, steps[j].error);
    }
  }

  lemma ErrorName(s: System, t: Task, a: nat, error: Bytes)
    requires Disciplined(s) && AllFetched(s) && AllReplied(s) && ErrorTask(s, t) && OnRecord(s, t, error) && !t.strict
    requires a < |s.names| && s.names[a].FromTask? && s.names[a].task == t
    ensures s.names[a].place == Place(ResponsePhase, 0) && s.names[a].data == error
  {
    var key := (t, s.names[a].place.phase);
    assert Recorded(s.lists, s.names[a]) && key in s.lists;
    assert Provenance(s.ops, s.takes, key, s.lists[key]);
    assert key.1 == ResponsePhase;
  }

  // ---------- The channel ----------

  /** Tasks wait in the order of their submission, and no more than there is room for. */
  ghost predicate ChannelSound(s: System) {
    && |s.channel| <= s.capacity
    && (forall i, j | 0 <= i < j < |s.channel| :: s.channel[i].id < s.channel[j].id)
    && (forall i | 0 <= i < |s.channel| :: s.channel[i].id < s.nextTask && !s.channel[i].strict)
  }

  lemma ChannelStep(s: System, step: SystemStep)
    requires ChannelSound(s) && SystemEnabled(s, step)
    ensures ChannelSound(SystemApply(s, step))
    ensures step.Submit? ==>
              var room := s.started && |s.channel| < s.capacity;
              |SystemApply(s, step).channel| == |s.channel| + if room then 1 else 0
    ensures step.Begin? ==> SystemApply(s, step).workers[step.w] == Calling(s.channel[0])
    ensures step.Call? ==> SystemApply(s, step).workers[step.w] == Calling(Task(s.nextTask, step.grid, true))
    ensures SystemApply(s, step).nextTask >= s.nextTask && SystemApply(s, step).capacity == s.capacity
  {
    match step
    case Submit(_) =>
    case Begin(_) =>
    case Call(_, _) =>
    case _ => ChannelLooksAt(s, step);
  }

  lemma ChannelLooksAt(s: System, step: SystemStep)
    requires SystemEnabled(s, step) && !step.Submit? && !step.Begin? && !step.Call?
    ensures var t := SystemApply(s, step);
            t.channel == s.channel && t.nextTask == s.nextTask && t.capacity == s.capacity
  {
    match step
    case Put(w, encoded, now, link, burst) =>
      var job, n := s.workers[w].job, s.workers[w].n;
      SettledChannel(if encoded then Enqueued(s, n, now, link, burst) else s, w, job,
                     encoded && EnqueueOutcome(s.queue, n, link) == Accepted);
    case Advance(w) => MovedOnChannel(s, w, s.workers[w].job);
    case _ =>
  }

  lemma SettledChannel(s: System, w: nat, job: Job, ok: bool)
    ensures var t := Settled(s, w, job, ok);
            t.channel == s.channel && t.nextTask == s.nextTask && t.capacity == s.capacity
  {
  }

  lemma MovedOnChannel(s: System, w: nat, job: Job)
    ensures var t := MovedOn(s, w, job); t.channel == s.channel && t.nextTask == s.nextTask && t.capacity == s.capacity
  {
    match job.place.phase
    case BeforePhase =>
    case ResponsePhase =>
    case AfterPhase =>
  }

  /** In every run the channel stays within its capacity, in order of submission. */
  lemma {:induction false} ChannelRun(states: seq<System>, steps: seq<SystemStep>, i: nat)
    requires IsSystemRun(states, steps) && Initial(states[0]) && i < |states|
    ensures ChannelSound(states[i])
  {
    if i > 0 {
      ChannelRun(states, steps, i - 1);
      assert SystemStepAt(states, steps, i - 1);
      ChannelStep(states[i - 1], steps[i - 1]);
    }
  }

  /** A submission is accepted exactly if the workers have been started and there is room. */
  lemma SubmitIff(states: seq<System>, steps: seq<SystemStep>, i: nat)
    requires IsSystemRun(states, steps) && Initial(states[0]) && i < |steps| && steps[i].Submit?
    ensures var room := states[i].started && |states[i].channel| < states[i].capacity;
            |states[i + 1].channel| == |states[i].channel| + if room then 1 else 0
  {
    ChannelRun(states, steps, i);
    assert SystemStepAt(states, steps, i);
    ChannelStep(states[i], steps[i]);
  }

  /** All tasks still in the channel, and all that will come, were submitted after number `x`. */
  ghost predicate OnlyLater(s: System, x: nat) {
    x < s.nextTask && forall i | 0 <= i < |s.channel| :: s.channel[i].id > x
  }

  lemma {:induction false} LaterRun(states: seq<System>, steps: seq<SystemStep>, j: nat, i: nat, x: nat)
    requires IsSystemRun(states, steps) && Initial(states[0]) && j <= i < |states| && OnlyLater(states[j], x)
    ensures OnlyLater(states[i], x)
    decreases i
  {
    if j < i {
      LaterRun(states, steps, j, i - 1, x);
      ChannelRun(states, steps, i - 1);
      assert SystemStepAt(states, steps, i - 1);
      LaterStep(states[i - 1], steps[i - 1], x);
    }
  }

  lemma LaterStep(s: System, step: SystemStep, x: nat)
    requires ChannelSound(s) && OnlyLater(s, x) && SystemEnabled(s, step)
    ensures OnlyLater(SystemApply(s, step), x)
  {
    match step
    case Submit(_) =>
    case Begin(_) =>
    case Call(_, _) =>
    case _ => ChannelLooksAt(s, step);
  }

  /** Workers begin tasks in the order in which these were submitted. */
  lemma BegunInOrder(states: seq<System>, steps: seq<SystemStep>, j: nat, i: nat)
    requires IsSystemRun(states, steps) && Initial(states[0]) && j < i < |steps| && steps[j].Begin? && steps[i].Begin?
    requires states[j].channel != [] && states[i].channel != []
    ensures states[j].channel[0].id < states[i].channel[0].id
  {
    ChannelRun(states, steps, j);
    assert SystemStepAt(states, steps, j);
    LaterRun(states, steps, j + 1, i, states[j].channel[0].id);
  }
}
