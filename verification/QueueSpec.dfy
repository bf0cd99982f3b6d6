/**
 The ordered push queue of one session, as a state and the steps that change it.

 Each step is one critical section of the queue's lock. The send callback is an
 oracle `link`: within one step a given number is handed to the callback at most
 once, so `link(n)` is the answer of that call, and a missing callback is an
 oracle that is always false. Besides the fields the queue keeps, the state
 carries the history of what has been put on the wire.
 */
module QueueSpec {
  import opened Common

  /** Times and durations are in nanoseconds. */
  const MESSAGE_TIMEOUT := 30 * SECOND
  const RETRY_TIMEOUT := MESSAGE_TIMEOUT / 2
  const MAX_RETRIES := 3

  datatype OrderedMessage =
    OrderedMessage(serverSeq: nat, data: Bytes, timestamp: int, retries: nat, sent: bool)

  /** What a client sees of a message. */
  datatype Frame = Frame(serverSeq: nat, data: Bytes)

  /** A first transmission: the message as it was, and when it went out. */
  datatype Transmission = Transmission(msg: OrderedMessage, at: int)

  /**
   `waiting`, `sent`, `next`, `lastSent`, `lastAcked`, `cap` and `stopped` are the
   queue's own fields. History: `firsts` lists the first transmissions in order,
   `resends` counts the retransmitted frames, and `skipped` holds the numbers
   that a resync stepped over.
   */
  datatype Queue = Queue(
    waiting: multiset<OrderedMessage>,
    sent: map<nat, OrderedMessage>,
    next: nat,
    lastSent: nat,
    lastAcked: nat,
    cap: int,
    stopped: bool,
    firsts: seq<Transmission>,
    resends: multiset<Frame>,
    skipped: set<nat>)

  ghost function Init(cap: int): Queue {
    Queue(multiset{}, map[], 1, 0, 0, cap, false, [], multiset{}, {})
  }

  function FrameOf(m: OrderedMessage): Frame {
    Frame(m.serverSeq, m.data)
  }

  /** The sub-multiset of the messages that satisfy `p`. */
  ghost function Keep(w: multiset<OrderedMessage>, p: OrderedMessage -> bool): (r: multiset<OrderedMessage>)
    ensures forall m :: r[m] == if p(m) then w[m] else 0
    decreases |w|
  {
    if forall m | m in w :: p(m) then w
    else
      var m :| m in w && !p(m);
      assert w == w[m := 0] + multiset{m}[m := w[m]];
      Keep(w[m := 0], p)
  }

  // ---------- Enqueue ----------

  /** A link over which everything gets through. */
  ghost predicate Always(link: nat -> bool) {
    forall n :: link(n)
  }

  datatype Outcome = Accepted | Stopped | Full | SendFailed | Stale

  function NewMessage(n: nat, data: Bytes, now: int): OrderedMessage {
    OrderedMessage(n, data, now, 0, false)
  }

  ghost function EnqueueOutcome(s: Queue, n: nat, link: nat -> bool): Outcome {
    if s.stopped then Stopped
    else if |s.waiting| >= s.cap then Full
    else if n == s.next then if link(n) then Accepted else SendFailed
    else if n > s.next then Accepted
    else Stale
  }

  /** Something numbered below `n` is parked, so it sits above `n` in the heap. */
  ghost predicate Covered(w: multiset<OrderedMessage>, n: nat) {
    exists m | m in w :: m.serverSeq < n
  }

  ghost predicate Parked(w: multiset<OrderedMessage>, n: nat) {
    exists m | m in w :: m.serverSeq == n
  }

  /** With the first `i` messages of `burst` gone from `w`, nothing below the number from + i is parked. */
  ghost predicate Surfaces(w: multiset<OrderedMessage>, from: nat, burst: seq<OrderedMessage>, i: nat)
    requires i < |burst|
  {
    !Covered(w - multiset(burst[..i]), from + i)
  }

  /**
   `burst` is a run of messages parked in `w`, numbered from, from + 1, ..., in which
   each is a least parked message when its turn comes and gets through the link.
   */
  ghost predicate BurstSoFar(w: multiset<OrderedMessage>, from: nat, link: nat -> bool, burst: seq<OrderedMessage>) {
    && multiset(burst) <= w
    && (forall i | 0 <= i < |burst| :: burst[i].serverSeq == from + i && link(burst[i].serverSeq))
    && (forall i: nat | i < |burst| :: Surfaces(w, from, burst, i))
  }

  /** What draining from `from` sends out of `w`: a run of that kind that cannot be prolonged. */
  ghost predicate IsBurst(w: multiset<OrderedMessage>, from: nat, link: nat -> bool, burst: seq<OrderedMessage>) {
    && BurstSoFar(w, from, link, burst)
    && var rest, stop := w - multiset(burst), from + |burst|;
       Covered(rest, stop) || !Parked(rest, stop) || !link(stop)
  }

  function SentCopy(ms: seq<OrderedMessage>, from: nat, k: nat): OrderedMessage
    requires from <= k < from + |ms|
  {
    ms[k - from].(sent := true)
  }

  /** `ms` marked as sent and keyed by the numbers from, from + 1, ... */
  ghost function Numbered(ms: seq<OrderedMessage>, from: nat): map<nat, OrderedMessage> {
    map k: nat | from <= k < from + |ms| :: SentCopy(ms, from, k)
  }

  ghost function Sends(ms: seq<OrderedMessage>, now: int): seq<Transmission> {
    seq(|ms|, i requires 0 <= i < |ms| => Transmission(ms[i], now))
  }

  /** Puts `ms`, numbered consecutively from `s.next`, on the wire for the first time. */
  ghost function Transmit(s: Queue, ms: seq<OrderedMessage>, now: int): Queue {
    s.(sent := s.sent + Numbered(ms, s.next),
       next := s.next + |ms|,
       lastSent := if ms == [] then s.lastSent else s.next + |ms| - 1,
       firsts := s.firsts + Sends(ms, now))
  }

  /** What a drain that sends `burst` does. */
  ghost function Drained(s: Queue, burst: seq<OrderedMessage>, now: int): Queue {
    Transmit(s, burst, now).(waiting := s.waiting - multiset(burst))
  }

  ghost predicate EnqueueEnabled(s: Queue, n: nat, link: nat -> bool, burst: seq<OrderedMessage>) {
    match EnqueueOutcome(s, n, link)
    case Accepted => if n == s.next then IsBurst(s.waiting, n + 1, link, burst) else burst == []
    case _ => burst == []
  }

  ghost function AfterEnqueue(
      s: Queue, n: nat, data: Bytes, now: int, link: nat -> bool, burst: seq<OrderedMessage>): Queue {
    var msg := NewMessage(n, data, now);
    if EnqueueOutcome(s, n, link) != Accepted then s
    else if n == s.next then Transmit(s, [msg] + burst, now).(waiting := s.waiting - multiset(burst))
    else s.(waiting := s.waiting + multiset{msg})
  }

  // ---------- Acknowledge and resync ----------

  function Above(sent: map<nat, OrderedMessage>, a: nat): map<nat, OrderedMessage> {
    map k | k in sent && k > a :: sent[k]
  }

  function NewerThan(a: nat): OrderedMessage -> bool {
    (m: OrderedMessage) => m.serverSeq > a
  }

  ghost function AfterAck(s: Queue, a: nat): Queue {
    s.(sent := Above(s.sent, a), lastAcked := Max(s.lastAcked, a))
  }

  /** Moves the expected number past `a` and drops what is parked at or below it. */
  ghost function Advanced(s: Queue, a: nat): Queue {
    s.(next := a + 1,
       lastSent := a,
       waiting := Keep(s.waiting, NewerThan(a)),
       skipped := s.skipped + Span(s.next, a + 1))
  }

  ghost function AfterResync(s: Queue, a: nat): Queue {
    AfterAck(if a < s.next then s else Advanced(s, a), a)
  }

  // ---------- Timer ----------

  predicate GivenUp(m: OrderedMessage, now: int) {
    now - m.timestamp > MESSAGE_TIMEOUT && m.retries >= MAX_RETRIES
  }

  predicate Due(m: OrderedMessage, now: int) {
    now - m.timestamp > RETRY_TIMEOUT && m.retries < MAX_RETRIES
  }

  function Timely(now: int): OrderedMessage -> bool {
    (m: OrderedMessage) => now - m.timestamp <= MESSAGE_TIMEOUT
  }

  function Unexpired(sent: map<nat, OrderedMessage>, now: int): map<nat, OrderedMessage> {
    map k | k in sent && !GivenUp(sent[k], now) :: sent[k]
  }

  ghost function AfterCleanup(s: Queue, now: int): Queue {
    s.(sent := Unexpired(s.sent, now),
       waiting := Keep(s.waiting, Timely(now)))
  }

  /** The numbers a retry round resends. */
  ghost function Resent(s: Queue, now: int, link: nat -> bool): set<nat> {
    set k | k in s.sent && Due(s.sent[k], now) && link(k)
  }

  function Retried(m: OrderedMessage, now: int): OrderedMessage {
    m.(retries := m.retries + 1, timestamp := now)
  }

  function FramesOf(sent: map<nat, OrderedMessage>, ks: set<nat>): set<Frame>
    requires ks <= sent.Keys
  {
    set k | k in ks :: Frame(k, sent[k].data)
  }

  function RetriedAll(sent: map<nat, OrderedMessage>, ks: set<nat>, now: int): map<nat, OrderedMessage> {
    map k | k in sent :: if k in ks then Retried(sent[k], now) else sent[k]
  }

  /** The effect of resending the messages numbered `ks`. */
  ghost function ResendAll(s: Queue, ks: set<nat>, now: int): Queue
    requires ks <= s.sent.Keys
  {
    s.(sent := RetriedAll(s.sent, ks, now),
       resends := s.resends + multiset(FramesOf(s.sent, ks)))
  }

  ghost function AfterRetry(s: Queue, now: int, link: nat -> bool): Queue {
    ResendAll(s, Resent(s, now, link), now)
  }

  ghost function AfterStop(s: Queue): Queue {
    if s.stopped then s else s.(stopped := true, waiting := multiset{}, sent := map[])
  }

  // ---------- Steps and runs ----------

  datatype Step =
    | Enqueue(n: nat, data: Bytes, now: int, link: nat -> bool, burst: seq<OrderedMessage>)
    | Ack(a: nat)
    | Resync(a: nat)
    | Cleanup(now: int)
    | Retry(now: int, link: nat -> bool)
    | Stop

  ghost predicate Enabled(s: Queue, step: Step) {
    step.Enqueue? ==> EnqueueEnabled(s, step.n, step.link, step.burst)
  }

  ghost function Apply(s: Queue, step: Step): Queue {
    match step
    case Enqueue(n, data, now, link, burst) => AfterEnqueue(s, n, data, now, link, burst)
    case Ack(a) => AfterAck(s, a)
    case Resync(a) => AfterResync(s, a)
    case Cleanup(now) => AfterCleanup(s, now)
    case Retry(now, link) => AfterRetry(s, now, link)
    case Stop => AfterStop(s)
  }

  ghost predicate StepAt(states: seq<Queue>, steps: seq<Step>, i: nat)
    requires |states| == |steps| + 1 && i < |steps|
  {
    Enabled(states[i], steps[i]) && states[i + 1] == Apply(states[i], steps[i])
  }

  ghost predicate IsRun(states: seq<Queue>, steps: seq<Step>) {
    |states| == |steps| + 1 && forall i: nat | i < |steps| :: StepAt(states, steps, i)
  }
}
