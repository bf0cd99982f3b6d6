/** One accept loop and any number of ending handlers around the connection counter. */
module Connections {
  import opened Common

  /** There is room for one more connection. */
  predicate HasRoom(current: int, limit: int) {
    current < limit
  }

  function Clamped(current: int): int {
    if current < 0 then 0 else current
  }

  /** Between connections; after a successful check; after counting the connection, before its handler starts. */
  datatype Acceptor = Idle | Admitted | Counted

  /** A handler ends in two steps: it takes itself off the counter, and looks at what it got. */
  datatype Handler = Serving | TakenOff(seen: int)

  /**
   `current` is the shared counter, and `limit` the configured maximum. History: `accepted`
   connections got a handler, `ended` handlers are through, `clamps` counts the times that
   the counter was set back to zero.
   */
  datatype Gate = Gate(
    limit: int,
    current: int,
    acceptor: Acceptor,
    handlers: map<nat, Handler>,
    accepted: nat,
    ended: nat,
    refused: nat,
    clamps: nat)

  function Init(limit: int): Gate {
    Gate(limit, 0, Idle, map[], 0, 0, 0, 0)
  }

  datatype Step = Check | Count | Spawn | TakeOff(h: nat) | Finish(h: nat)

  predicate Enabled(g: Gate, step: Step) {
    match step
    case Check => g.acceptor == Idle
    case Count => g.acceptor == Admitted
    case Spawn => g.acceptor == Counted
    case TakeOff(h) => h in g.handlers && g.handlers[h] == Serving
    case Finish(h) => h in g.handlers && g.handlers[h].TakenOff?
  }

  function Apply(g: Gate, step: Step): Gate
    requires Enabled(g, step)
  {
    match step
    case Check => if HasRoom(g.current, g.limit) then g.(acceptor := Admitted) else g.(refused := g.refused + 1)
    case Count => g.(current := g.current + 1, acceptor := Counted)
    case Spawn => g.(acceptor := Idle, handlers := g.handlers[g.accepted := Serving], accepted := g.accepted + 1)
    case TakeOff(h) => g.(current := g.current - 1, handlers := g.handlers[h := TakenOff(g.current - 1)])
    case Finish(h) =>
      var seen, g' := g.handlers[h].seen, g.(handlers := g.handlers - {h}, ended := g.ended + 1);
      if seen < 0 then g'.(current := 0, clamps := g.clamps + 1) else g'
  }

  predicate StepAt(gs: seq<Gate>, steps: seq<Step>, i: nat)
    requires |gs| == |steps| + 1 && i < |steps|
  {
    Enabled(gs[i], steps[i]) && gs[i + 1] == Apply(gs[i], steps[i])
  }

  predicate IsRun(gs: seq<Gate>, steps: seq<Step>) {
    |gs| == |steps| + 1 && forall i: nat | i < |steps| :: StepAt(gs, steps, i)
  }

  /** The handlers that are on the counter. */
  function OnCounter(g: Gate): set<nat> {
    set h | h in g.handlers && g.handlers[h] == Serving
  }

  /** The counter is exact, within the limit, and never set back; every handler is accounted for. */
  predicate Sound(g: Gate) {
    && g.current == |OnCounter(g)| + (if g.acceptor == Counted then 1 else 0)
    && g.current <= Max(0, g.limit)
    && (g.acceptor == Admitted ==> HasRoom(g.current, g.limit))
    && (forall h | h in g.handlers :: h < g.accepted)
    && (forall h | h in g.handlers && g.handlers[h].TakenOff? :: g.handlers[h].seen >= 0)
    && g.accepted == g.ended + |g.handlers|
    && g.clamps == 0
  }

  lemma SpawnCounts(g: Gate)
    requires Sound(g) && g.acceptor == Counted
    ensures |OnCounter(Apply(g, Spawn))| == |OnCounter(g)| + 1
    ensures |Apply(g, Spawn).handlers| == |g.handlers| + 1
  {
    var g' := Apply(g, Spawn);
    assert g.accepted !in OnCounter(g);
    assert OnCounter(g') == OnCounter(g) + {g.accepted};
    assert g'.handlers.Keys == g.handlers.Keys + {g.accepted};
    assert |g'.handlers| == |g'.handlers.Keys| && |g.handlers| == |g.handlers.Keys|;
  }

  lemma SpawnSound(g: Gate)
    requires Sound(g) && g.acceptor == Counted
    ensures Sound(Apply(g, Spawn))
  {
    SpawnCounts(g);
  }

  lemma TakeOffSound(g: Gate, h: nat)
    requires Sound(g) && Enabled(g, TakeOff(h))
    ensures Sound(Apply(g, TakeOff(h)))
  {
    var g' := Apply(g, TakeOff(h));
    assert h in OnCounter(g);
    assert OnCounter(g') == OnCounter(g) - {h};
    assert g'.handlers.Keys == g.handlers.Keys;
    assert |g'.handlers| == |g'.handlers.Keys| && |g.handlers| == |g.handlers.Keys|;
  }

  lemma FinishSound(g: Gate, h: nat)
    requires Sound(g) && Enabled(g, Finish(h))
    ensures Sound(Apply(g, Finish(h)))
  {
    var g' := Apply(g, Finish(h));
    assert OnCounter(g') == OnCounter(g);
    assert g'.handlers.Keys == g.handlers.Keys - {h};
    assert |g'.handlers| == |g'.handlers.Keys| && |g.handlers| == |g.handlers.Keys|;
  }

  lemma StepSound(g: Gate, step: Step)
    requires Sound(g) && Enabled(g, step)
    ensures Sound(Apply(g, step))
  {
    match step
    case Check => assert OnCounter(Apply(g, step)) == OnCounter(g);
    case Count => assert OnCounter(Apply(g, step)) == OnCounter(g);
    case Spawn => SpawnSound(g);
    case TakeOff(h) => TakeOffSound(g, h);
    case Finish(h) => FinishSound(g, h);
  }

  /** In every state of every run the counter is exact, within the limit, and was never clamped. */
  lemma {:induction false} GateRun(limit: int, gs: seq<Gate>, steps: seq<Step>, i: nat)
    requires IsRun(gs, steps) && gs[0] == Init(limit) && i < |gs|
    ensures Sound(gs[i]) && gs[i].limit == limit
  {
    if i == 0 {
      assert OnCounter(Init(limit)) == {};
    } else {
      assert StepAt(gs, steps, i - 1);
      GateRun(limit, gs, steps, i - 1);
      StepSound(gs[i - 1], steps[i - 1]);
    }
  }

  /** A connection is refused just when as many handlers are at work as there may be. */
  lemma RefusedWhenFull(g: Gate)
    requires Sound(g) && Enabled(g, Check)
    ensures Apply(g, Check).refused > g.refused <==> |OnCounter(g)| >= g.limit
    ensures Apply(g, Check).refused > g.refused ==> |OnCounter(g)| == Max(0, g.limit)
  {
  }


  /**
   The end of a handler, both steps, takes one off the counter, but not below zero; counting
   a connection adds one.
   */
  lemma EndTakesOneOff(g: Gate, h: nat)
    requires Enabled(g, TakeOff(h))
    ensures Enabled(Apply(g, TakeOff(h)), Finish(h))
    ensures Apply(Apply(g, TakeOff(h)), Finish(h)).current == Max(0, g.current - 1) == Clamped(g.current - 1)
    ensures g.acceptor == Admitted ==> Apply(g, Count).current == g.current + 1
  {
  }

  /** In a sound state the counter then is exactly one less. */
  lemma EndIsExact(g: Gate, h: nat)
    requires Sound(g) && Enabled(g, TakeOff(h))
    ensures Apply(Apply(g, TakeOff(h)), Finish(h)).current == g.current - 1
  {
    assert h in OnCounter(g);
  }
}
