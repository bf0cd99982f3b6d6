/** What becomes of a bound notify on the wire. */
module NotifyDelivery {
  import opened Workers
  import N = NotifySpec
  import NotifyHistory

  /** The operations that bound what the take of (task, phase) `key` returned, in order. */
  ghost function Fetched(s: System, key: (Task, Phase)): seq<nat>
    requires key in s.takes && s.takes[key] < |s.ops|
  {
    var at := s.takes[key];
    N.Bindings(s.ops[..at], at, SideOf(key.1), key.0.grid)
  }

  /** Origin `o` is a place in a task's program at which it sends the notify bound by operation `b`. */
  ghost predicate Carries(s: System, o: Origin, b: nat) {
    && o.FromTask? && o.place.phase != ResponsePhase
    && var key := (o.task, o.place.phase);
       && key in s.takes && s.takes[key] < |s.ops|
       && o.place.index < |Fetched(s, key)| && Fetched(s, key)[o.place.index] == b
  }

  lemma CarriedIsBound(s: System, o: Origin, b: nat)
    requires AllFetched(s) && Carries(s, o, b) && (o.task, o.place.phase) in s.lists
    ensures var key := (o.task, o.place.phase);
            && b < s.takes[key] < |s.ops| && s.ops[s.takes[key]] == N.Take(SideOf(key.1), key.0.grid)
            && N.Survives(s.ops[..s.takes[key]], b, SideOf(key.1), key.0.grid)
            && s.ops[b].Add? && s.ops[b].side == SideOf(key.1) && s.ops[b].grid == key.0.grid
  {
    var key := (o.task, o.place.phase);
    var at := s.takes[key];
    assert Provenance(s.ops, s.takes, key, s.lists[key]);
    NotifyHistory.SurvivorsAreBound(s.ops[..at], at, SideOf(key.1), key.0.grid);
    assert s.ops[..at][b] == s.ops[b];
  }

  /** A notify is fetched by one take only, because the first one ends its wait. */
  lemma OneTake(s: System, o: Origin, o': Origin, b: nat)
    requires AllFetched(s) && Carries(s, o, b) && Carries(s, o', b)
    requires (o.task, o.place.phase) in s.lists && (o'.task, o'.place.phase) in s.lists
    ensures s.takes[(o.task, o.place.phase)] >= s.takes[(o'.task, o'.place.phase)]
  {
    CarriedIsBound(s, o, b);
    CarriedIsBound(s, o', b);
  }

  /** So it has one place in one task's program. */
  lemma OnePlace(s: System, o: Origin, o': Origin, b: nat)
    requires AllFetched(s) && Carries(s, o, b) && Carries(s, o', b)
    requires (o.task, o.place.phase) in s.lists && (o'.task, o'.place.phase) in s.lists
    ensures o.task == o'.task && o.place == o'.place
  {
    OneTake(s, o, o', b);
    OneTake(s, o', o, b);
    var key := (o.task, o.place.phase);
    var at := s.takes[key];
    assert key == (o'.task, o'.place.phase);
    NotifyHistory.SurvivorsAreBound(s.ops[..at], at, SideOf(key.1), key.0.grid);
  }

  /** The `p`th message on the trace carries the notify bound by operation `b`. */
  ghost predicate CarriesAt(s: System, p: nat, b: nat)
    requires p < |s.queue.firsts|
  {
    Carries(s, OriginOf(s, p), b)
  }

  /** Every bound notify is put on the wire for the first time at most once, under one number. */
  lemma NotifyGoesOutOnce(states: seq<System>, steps: seq<SystemStep>, i: nat, p: nat, q: nat, b: nat)
    requires IsSystemRun(states, steps) && Initial(states[0]) && i < |states|
    requires p < |states[i].queue.firsts| && q < |states[i].queue.firsts|
    requires CarriesAt(states[i], p, b) && CarriesAt(states[i], q, b)
    ensures p == q
  {
    SystemRun(states, steps, i);
    var s := states[i];
    var o, o' := OriginOf(s, p), OriginOf(s, q);
    assert Recorded(s.lists, o) && Recorded(s.lists, o');
    OnePlace(s, o, o', b);
    if p < q {
      Bracketing(states, steps, i, p, q);
    } else if q < p {
      Bracketing(states, steps, i, q, p);
    }
  }

  /**
   And every notify that a task puts on the wire was bound, to the task's request and on the
   phase's side, with the payload it goes out with.
   */
  lemma SentNotifyWasBound(states: seq<System>, steps: seq<SystemStep>, i: nat, p: nat) returns (b: nat)
    requires IsSystemRun(states, steps) && Initial(states[0]) && i < |states|
    requires p < |states[i].queue.firsts|
    requires OriginOf(states[i], p).FromTask? && OriginOf(states[i], p).place.phase != ResponsePhase
    ensures CarriesAt(states[i], p, b)
    ensures var s, o := states[i], OriginOf(states[i], p);
            && b < |s.ops| && s.ops[b].Add?
            && s.ops[b] == N.Add(SideOf(o.place.phase), o.task.grid, s.ops[b].item)
            && s.ops[b].item.data == s.queue.firsts[p].msg.data
  {
    PayloadProvenance(states, steps, i, p);
    var s, o := states[i], OriginOf(states[i], p);
    var key := (o.task, o.place.phase);
    var at := s.takes[key];
    NotifyHistory.SurvivorsAreBound(s.ops[..at], at, SideOf(key.1), key.0.grid);
    b := Fetched(s, key)[o.place.index];
    CarriedIsBound(s, o, b);
    assert s.ops[..at][b] == s.ops[b];
  }
}
