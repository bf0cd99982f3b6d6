/**
 When nothing goes wrong every task is served in full: its response, and all that was bound
 before and after it, is on the wire.
 */
module Service {
  import opened Workers
  import opened TaskFates
  import opened Reordering
  import opened Quiescence
  import opened NotifyDelivery
  import N = NotifySpec
  import NotifyHistory

  /** In step `j` task `t` gets its response from upstream. */
  ghost predicate Fetches(states: seq<System>, steps: seq<SystemStep>, j: nat, t: Task)
    requires j < |steps| < |states|
  {
    steps[j].Fetch? && steps[j].w in states[j].workers && states[j].workers[steps[j].w] == Calling(t)
  }

  lemma {:induction false} SmoothGoesThrough(
      states: seq<System>, steps: seq<SystemStep>, cap: int, j: nat, i: nat, t: Task)
    requires IsSystemRun(states, steps) && Fresh(states[0], cap) && j < i < |states| && Fetches(states, steps, j, t)
    requires forall k: nat | k < i :: SmoothAt(states, steps, k)
    ensures GoesThrough(states[i], t)
    decreases i
  {
    if j == i - 1 {
      FetchedRun(states, steps, j, i, t);
      StartsServed(states, steps, j, t);
    } else {
      SmoothGoesThrough(states, steps, cap, j, i - 1, t);
      assert FetchedTask(states[i - 1], t) by {
        FetchedRun(states, steps, j, i - 1, t);
      }
      assert RunsSmoothly(states[i - 1], PutSoFar(states, steps, i - 1)) by {
        SmoothRun(states, steps, cap, i - 1);
      }
      assert Disciplined(states[i - 1]) && AllReplied(states[i - 1]) by {
        SystemRun(states, steps, i - 1);
      }
      assert SystemStepAt(states, steps, i - 1) && SmoothAt(states, steps, i - 1);
      SmoothStepGoesThrough(states[i - 1], steps[i - 1], PutSoFar(states, steps, i - 1), t);
    }
  }

  lemma StartsServed(states: seq<System>, steps: seq<SystemStep>, j: nat, t: Task)
    requires IsSystemRun(states, steps) && j < |steps| && Fetches(states, steps, j, t)
    ensures Served(states[j + 1], t)
  {
    assert SystemStepAt(states, steps, j);
    assert HasJob(states[j + 1], steps[j].w, t);
  }

  lemma SmoothStepGoesThrough(s: System, step: SystemStep, d: Offered, t: Task)
    requires Disciplined(s) && AllReplied(s) && SystemEnabled(s, step) && FetchedTask(s, t) && GoesThrough(s, t)
    requires Smooth(s, d, step) && RunsSmoothly(s, d)
    ensures GoesThrough(SystemApply(s, step), t)
  {
    if step.Put? {
      SmoothPutIsAccepted(s, d, step);
    }
    FetchedTaskStep(s, step, t);
  }

  /**
   Once all is done, a task that got its response has fetched both kinds of notifies, and set
   out to send its response.
   */
  lemma ServedInFull(states: seq<System>, steps: seq<SystemStep>, cap: int, j: nat, i: nat, t: Task)
    requires IsSystemRun(states, steps) && Fresh(states[0], cap) && j < i < |states| && Fetches(states, steps, j, t)
    requires forall k: nat | k < i :: SmoothAt(states, steps, k)
    requires AtRest(states[i], PutSoFar(states, steps, i))
    ensures (t, BeforePhase) in states[i].takes && (t, AfterPhase) in states[i].takes
    ensures (t, ResponsePhase) in states[i].lists
  {
    SmoothGoesThrough(states, steps, cap, j, i, t);
    FetchedRun(states, steps, j, i, t);
    assert !Served(states[i], t);
  }

  /** Whatever fails, a task of the asynchronous path that got its response has set out to send it. */
  lemma AnsweredAnyway(states: seq<System>, steps: seq<SystemStep>, j: nat, i: nat, t: Task)
    requires IsSystemRun(states, steps) && Initial(states[0]) && j < i < |states| && Fetches(states, steps, j, t)
    requires !t.strict && forall w | w in states[i].workers :: states[i].workers[w].Idle?
    ensures (t, ResponsePhase) in states[i].lists && states[i].lists[(t, ResponsePhase)] == [steps[j].response]
  {
    FetchedRun(states, steps, j, i, t);
    assert !Served(states[i], t);
    SystemRun(states, steps, i);
    assert SystemStepAt(states, steps, j) && Gives(states[j], steps[j], t, steps[j].response);
    OneReply(states, steps, i, t, steps[j].response);
    assert OnRecord(states[i], t, steps[j].response);
  }

  /** The response of a served task is on the wire, unless it is empty and the task strict. */
  lemma ResponseGoesOut(states: seq<System>, steps: seq<SystemStep>, cap: int, j: nat, i: nat, t: Task)
    requires IsSystemRun(states, steps) && Fresh(states[0], cap) && j < i < |states| && Fetches(states, steps, j, t)
    requires forall k: nat | k < i :: SmoothAt(states, steps, k)
    requires AtRest(states[i], PutSoFar(states, steps, i))
    requires !t.strict || steps[j].response != []
    ensures exists p: nat :: p < |states[i].queue.firsts|
                             && OriginOf(states[i], p) == FromTask(t, Place(ResponsePhase, 0), steps[j].response)
                             && states[i].queue.firsts[p].msg.data == steps[j].response
  {
    var s, key := states[i], (t, ResponsePhase);
    ServedInFull(states, steps, cap, j, i, t);
    SystemRun(states, steps, i);
    assert SystemStepAt(states, steps, j) && Gives(states[j], steps[j], t, steps[j].response);
    OneReply(states, steps, i, t, steps[j].response);
    assert OnRecord(s, t, steps[j].response) && s.lists[key] == [steps[j].response];
    NothingMissing(states, steps, cap, i, key, 0);
    assert OnWireFor(s, key, 0);
  }

  /** The phase in which what is bound on `side` is sent. */
  function PhaseOf(side: N.Side): Phase {
    match side
    case Before => BeforePhase
    case After => AfterPhase
  }

  /**
   So is every notify that was bound to the request, before its response or after it, and
   was still bound when the task fetched that kind: fetched is what survives, and it goes
   out, with its payload.
   */
  lemma BoundNotifyGoesOut(
      states: seq<System>, steps: seq<SystemStep>, cap: int, j: nat, i: nat, t: Task, side: N.Side, b: nat)
    requires IsSystemRun(states, steps) && Fresh(states[0], cap) && j < i < |states| && Fetches(states, steps, j, t)
    requires forall k: nat | k < i :: SmoothAt(states, steps, k)
    requires AtRest(states[i], PutSoFar(states, steps, i))
    ensures (t, PhaseOf(side)) in states[i].takes && states[i].takes[(t, PhaseOf(side))] < |states[i].ops|
    ensures var at := states[i].takes[(t, PhaseOf(side))];
            && states[i].ops[at] == N.Take(side, t.grid)
            && (b < at && N.Survives(states[i].ops[..at], b, side, t.grid) ==>
                  exists p: nat :: p < |states[i].queue.firsts| && CarriesAt(states[i], p, b)
                                   && states[i].queue.firsts[p].msg.data == states[i].ops[b].item.data)
  {
    var s, key := states[i], (t, PhaseOf(side));
    ServedInFull(states, steps, cap, j, i, t);
    SystemRun(states, steps, i);
    RepliedFirstRun(states, steps, i);
    assert key in s.lists && Provenance(s.ops, s.takes, key, s.lists[key]);
    var at := s.takes[key];
    if b < at && N.Survives(s.ops[..at], b, side, t.grid) {
      SurvivorGoesOut(states, steps, cap, i, key, b);
    }
  }

  lemma ListIsFetched(s: System, key: (Task, Phase), k: nat)
    requires key in s.takes && key in s.lists && key.1 != ResponsePhase && s.takes[key] < |s.ops|
    requires Provenance(s.ops, s.takes, key, s.lists[key]) && k < |Fetched(s, key)|
    ensures k < |s.lists[key]| && Fetched(s, key)[k] < |s.ops|
    ensures var b := Fetched(s, key)[k]; s.ops[b].Add? && s.lists[key][k] == s.ops[b].item.data
  {
    var at := s.takes[key];
    NotifyHistory.SurvivorsAreBound(s.ops[..at], at, SideOf(key.1), key.0.grid);
    assert FetchedAt(s.ops, at, SideOf(key.1), key.0.grid, s.lists[key]);
    assert s.ops[..at][Fetched(s, key)[k]] == s.ops[Fetched(s, key)[k]];
  }

  lemma SurvivorGoesOut(states: seq<System>, steps: seq<SystemStep>, cap: int, i: nat, key: (Task, Phase), b: nat)
    requires IsSystemRun(states, steps) && Fresh(states[0], cap) && i < |states|
    requires forall k: nat | k < i :: SmoothAt(states, steps, k)
    requires AtRest(states[i], PutSoFar(states, steps, i)) && AllFetched(states[i])
    requires key in states[i].takes && key in states[i].lists && key.1 != ResponsePhase
    requires states[i].takes[key] < |states[i].ops| && b < states[i].takes[key]
    requires N.Survives(states[i].ops[..states[i].takes[key]], b, SideOf(key.1), key.0.grid)
    ensures exists p: nat :: p < |states[i].queue.firsts| && CarriesAt(states[i], p, b)
                             && states[i].queue.firsts[p].msg.data == states[i].ops[b].item.data
  {
    var s, at := states[i], states[i].takes[key];
    assert Provenance(s.ops, s.takes, key, s.lists[key]);
    NotifyHistory.BindingsAreComplete(s.ops[..at], at, SideOf(key.1), key.0.grid, b);
    NotifyHistory.SurvivorsAreBound(s.ops[..at], at, SideOf(key.1), key.0.grid);
    var k: nat :| k < |Fetched(s, key)| && Fetched(s, key)[k] == b;
    ListIsFetched(s, key, k);
    NothingMissing(states, steps, cap, i, key, k);
    assert OnWireFor(s, key, k);
    var p: nat :| p < |s.queue.firsts|
                  && OriginOf(s, p) == FromTask(key.0, Place(key.1, k), s.lists[key][k])
                  && s.queue.firsts[p].msg.data == s.lists[key][k];
    assert CarriesAt(s, p, b);
  }
}
