/** Pushes of a session are steps of the runs that `Reconnect` is about, and a closed session's reach no wire. */
module PushSteps {
  import opened Common
  import opened QueueSpec
  import opened SessionSpec
  import opened Sending
  import opened Reconnect

  /** A push takes a number, whatever happens; and if the message encodes, it enqueues it by an enabled step. */
  lemma PushIsTwoSteps(
      s: Session, live: bool, i: nat, payload: Bytes, w: World, r: SendOutcome, burst: seq<OrderedMessage>, t: Session)
    returns (step: ManagerStep)
    requires Sound(s) && Pushes(s, payload, w, r, burst, t)
    ensures var n := s.serverSeq + 1;
            var u := SessionAfter(s, live, Alloc(i, Label(payload, w, n)));
            if w.encode(n, payload).None? then r == EncodeFailed && t == u
            else step.Push? && step.i == i && r.Enqueued? && EnqueuesIt(u, live, step, n, t)
  {
    var n := s.serverSeq + 1;
    step := Push(i, n, w.clock(n), Callback(s.closed, w, n), burst);
    if w.encode(n, payload).Some? {
      LabelledPush(s, live, step, w.encode(n, payload).value, t);
    }
  }

  lemma LabelledPush(s: Session, live: bool, step: ManagerStep, data: Bytes, t: Session)
    requires Sound(s) && step.Push? && step.n == s.serverSeq + 1 && Silenced(s, step.link)
    requires EnqueueEnabled(s.queue, step.n, step.link, step.burst)
    requires t == AfterAlloc(s, data).(queue := AfterEnqueue(s.queue, step.n, data, step.now, step.link, step.burst))
    ensures EnqueuesIt(AfterAlloc(s, data), live, step, s.serverSeq + 1, t)
  {
    assert AfterAlloc(s, data).names[step.n - 1] == data;
  }

  ghost predicate EnqueuesIt(u: Session, live: bool, step: ManagerStep, n: nat, t: Session) {
    step.Push? && step.n == n && SessionEnabled(u, step) && t == SessionAfter(u, live, step)
  }

  /**
   A push on a closed session puts nothing on the wire, in any world. It is accepted only
   if its message is parked, behind a number that can no longer be sent.
   */
  lemma ClosedPushSendsNothing(
      s: Session, payload: Bytes, w: World, r: SendOutcome, burst: seq<OrderedMessage>, t: Session)
    requires s.closed && Pushes(s, payload, w, r, burst, t)
    ensures t.queue.firsts == s.queue.firsts && t.queue.resends == s.queue.resends && t.queue.next == s.queue.next
    ensures r == Enqueued(Accepted) <==>
              && w.encode(s.serverSeq + 1, payload).Some?
              && !s.queue.stopped && |s.queue.waiting| < s.queue.cap && s.serverSeq + 1 > s.queue.next
  {
  }

  /** A push on a caught-up session goes out if and only if its message encodes and the stream takes it. */
  lemma OpenPushGoesOutIff(s: Session, payload: Bytes, w: World, r: SendOutcome, burst: seq<OrderedMessage>, t: Session)
    requires CaughtUp(s) && Pushes(s, payload, w, r, burst, t)
    ensures var n := s.serverSeq + 1;
            && (r == Enqueued(Accepted) <==> w.encode(n, payload).Some? && w.stream(n, n))
            && (t.queue.firsts != s.queue.firsts <==> w.encode(n, payload).Some? && w.stream(n, n))
  {
    var n := s.serverSeq + 1;
    if w.encode(n, payload).Some? && w.stream(n, n) {
      assert |t.queue.firsts| > |s.queue.firsts|;
    }
  }

  /** A tick is a cleanup and a retry round, both enabled; that of a closed session puts nothing on the wire. */
  lemma TickIsTwoSteps(s: Session, live: bool, i: nat, now: int, stream: nat -> bool)
    ensures var link := Answering(s.closed, stream);
            var first, second := Timer(i, Cleanup(now)), Timer(i, Retry(now, link));
            && SessionEnabled(s, first) && SessionEnabled(SessionAfter(s, live, first), second)
            && AfterTick(s, now, link) == SessionAfter(SessionAfter(s, live, first), live, second)
    ensures s.closed ==>
              var t := AfterTick(s, now, Answering(s.closed, stream));
              t.queue.firsts == s.queue.firsts && t.queue.resends == s.queue.resends
  {
    var link := Answering(s.closed, stream);
    if s.closed {
      SilencedRetrySendsNothing(s.(queue := AfterCleanup(s.queue, now)), now, link);
    }
  }

  /** The ticks of an open session resend exactly what is due and what the stream takes. */
  lemma OpenTickResends(s: Session, now: int, stream: nat -> bool, k: nat)
    requires !s.closed
    ensures k in Resent(s.queue, now, Answering(s.closed, stream)) <==> k in Resent(s.queue, now, stream)
  {
  }
}
