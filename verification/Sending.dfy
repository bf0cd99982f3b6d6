/** Pushing on one session: a single push, and an uninterrupted series of them. */
module Sending {
  import opened Common
  import opened QueueSpec
  import opened QueueAlgebra
  import opened SessionSpec

  /**
   What a push meets outside the session: the encoding of a payload under its number, the
   clock when that number is enqueued, and whether the stream takes number k while number
   n is being enqueued.
   */
  datatype World = World(encode: (nat, Bytes) -> Option<Bytes>, clock: nat -> int, stream: (nat, nat) -> bool)

  /** What the send callback answers: a closed session fails before it tries the stream. */
  function Answering(closed: bool, stream: nat -> bool): nat -> bool {
    (k: nat) => !closed && stream(k)
  }

  /** The session after both parts of a tick. */
  ghost function AfterTick(s: Session, now: int, link: nat -> bool): Session {
    s.(queue := AfterRetry(AfterCleanup(s.queue, now), now, link))
  }

  /** The callback while number `n` is being enqueued. */
  function Callback(closed: bool, w: World, n: nat): nat -> bool {
    Answering(closed, (k: nat) => w.stream(n, k))
  }

  datatype SendOutcome = EncodeFailed | Enqueued(outcome: Outcome)

  /** Pushing `payload` takes `s` to `t`: a number is taken whatever happens, and enqueued if the message encodes. */
  ghost predicate Pushes(s: Session, payload: Bytes, w: World, r: SendOutcome, burst: seq<OrderedMessage>, t: Session) {
    var n := s.serverSeq + 1;
    var link := Callback(s.closed, w, n);
    match w.encode(n, payload)
    case None => r == EncodeFailed && t == AfterAlloc(s, [])
    case Some(data) =>
      && r == QueuedAs(s, n, link) && EnqueueEnabled(s.queue, n, link, burst)
      && t == AfterAlloc(s, data).(queue := AfterEnqueue(s.queue, n, data, w.clock(n), link, burst))
  }

  ghost function QueuedAs(s: Session, n: nat, link: nat -> bool): SendOutcome {
    Enqueued(EnqueueOutcome(s.queue, n, link))
  }

  ghost predicate OnePush(s: Session, payload: Bytes, w: World, ok: bool, t: Session) {
    exists r, burst :: Pushes(s, payload, w, r, burst, t) && (ok <==> r == Enqueued(Accepted))
  }

  ghost predicate TrailStep(states: seq<Session>, plan: seq<Bytes>, w: World, ok: bool, i: nat)
    requires i + 1 < |states| && i < |plan|
  {
    OnePush(states[i], plan[i], w, i + 2 < |states| || ok, states[i + 1])
  }

  /** `states` are the sessions in a series of pushes of `plan`, which goes on until one fails. */
  ghost predicate Trail(states: seq<Session>, plan: seq<Bytes>, w: World, ok: bool) {
    && 1 <= |states| <= |plan| + 1
    && (ok ==> |states| == |plan| + 1)
    && (!ok ==> |states| > 1)
    && forall i: nat | i + 1 < |states| :: TrailStep(states, plan, w, ok, i)
  }

  lemma TrailExtends(states: seq<Session>, plan: seq<Bytes>, payload: Bytes, w: World, ok: bool, t: Session)
    requires Trail(states, plan, w, true) && OnePush(states[|plan|], payload, w, ok, t)
    ensures Trail(states + [t], plan + [payload], w, ok)
  {
    var longer := states + [t];
    forall i: nat | i + 1 < |longer| ensures TrailStep(longer, plan + [payload], w, ok, i) {
      assert i < |plan| ==> TrailStep(states, plan, w, true, i);
    }
  }

  lemma TrailFailsEarly(states: seq<Session>, p: seq<Bytes>, q: seq<Bytes>, w: World)
    requires Trail(states, p, w, false)
    ensures Trail(states, p + q, w, false)
  {
    forall i: nat | i + 1 < |states| ensures TrailStep(states, p + q, w, false, i) {
      assert TrailStep(states, p, w, false, i);
    }
  }

  /** Nothing keeps a new push from going out at once. */
  ghost predicate CaughtUp(s: Session) {
    && !s.closed && !s.queue.stopped && s.queue.cap > 0
    && s.queue.next == s.serverSeq + 1 && s.queue.waiting == multiset{}
  }

  ghost predicate Works(w: World) {
    && (forall n, p :: w.encode(n, p).Some?)
    && forall n, k :: w.stream(n, k)
  }

  /** The first transmission of `payload` under number `n`. */
  ghost function Direct(payload: Bytes, w: World, n: nat): Transmission
    requires Works(w)
  {
    Transmission(NewMessage(n, w.encode(n, payload).value, w.clock(n)), w.clock(n))
  }

  lemma CaughtUpSends(s: Session, payload: Bytes, w: World, ok: bool, t: Session)
    requires CaughtUp(s) && Works(w) && OnePush(s, payload, w, ok, t)
    ensures ok && CaughtUp(t) && t.serverSeq == s.serverSeq + 1
    ensures t.queue.firsts == s.queue.firsts + [Direct(payload, w, s.serverSeq + 1)]
  {
    var n := s.serverSeq + 1;
    var r, burst :| Pushes(s, payload, w, r, burst, t) && (ok <==> r == Enqueued(Accepted));
    var msg := NewMessage(n, w.encode(n, payload).value, w.clock(n));
    assert multiset(burst) <= multiset{} && |burst| == |multiset(burst)|;
    assert [msg] + burst == [msg];
    TransmitOne(s.queue, msg, w.clock(n));
  }

  /**
   A caught-up session puts a series of pushes on the wire as they are made: all of them, in
   order, under consecutive numbers.
   */
  lemma {:induction false} CaughtUpTrail(states: seq<Session>, plan: seq<Bytes>, w: World, ok: bool, i: nat)
    requires Trail(states, plan, w, ok) && CaughtUp(states[0]) && Works(w) && i < |states|
    ensures CaughtUp(states[i]) && states[i].serverSeq == states[0].serverSeq + i
    ensures states[i].queue.firsts == states[0].queue.firsts
            + seq(i, j requires 0 <= j < i => Direct(plan[j], w, states[0].serverSeq + 1 + j))
  {
    if i > 0 {
      CaughtUpTrail(states, plan, w, ok, i - 1);
      assert TrailStep(states, plan, w, ok, i - 1);
      CaughtUpSends(states[i - 1], plan[i - 1], w, i + 1 < |states| || ok, states[i]);
    }
  }

  lemma CaughtUpTrailSucceeds(states: seq<Session>, plan: seq<Bytes>, w: World, ok: bool)
    requires Trail(states, plan, w, ok) && CaughtUp(states[0]) && Works(w)
    ensures ok
  {
    if |states| > 1 {
      var i := |states| - 2;
      CaughtUpTrail(states, plan, w, ok, i);
      assert TrailStep(states, plan, w, ok, i);
      CaughtUpSends(states[i], plan[i], w, ok, states[i + 1]);
    }
  }

  /** What a number is taken for: the encoded payload, or nothing if it does not encode. */
  function Label(payload: Bytes, w: World, n: nat): Bytes {
    match w.encode(n, payload)
    case None => []
    case Some(data) => data
  }

  /** Caught up or not, the pushes take consecutive numbers in the order of the plan, each for its own payload. */
  lemma {:induction false} TrailNumbers(states: seq<Session>, plan: seq<Bytes>, w: World, ok: bool, i: nat)
    requires Trail(states, plan, w, ok) && i < |states|
    ensures states[i].serverSeq == states[0].serverSeq + i
    ensures states[i].names == states[0].names
            + seq(i, j requires 0 <= j < i => Label(plan[j], w, states[0].serverSeq + 1 + j))
  {
    if i > 0 {
      TrailNumbers(states, plan, w, ok, i - 1);
      assert TrailStep(states, plan, w, ok, i - 1);
    }
  }
}
