/** Sessions and their manager as the gateway runs them, proved against `SessionSpec`. */
module Sessions {
  import opened Common
  import opened QueueSpec
  import opened OrderedQueue
  import opened NotifyOrdering
  import opened Sending
  import N = NotifySpec
  import Spec = SessionSpec

  /** The histories of a session, as in `SessionSpec`. */
  datatype Past = Past(names: seq<Bytes>, base: nat, pred: Option<nat>, admitted: seq<nat>)

  function IfAny(response: Bytes): seq<Bytes> {
    if response == [] then [] else [response]
  }

  /** The payloads pushed for a request: what is bound before its response, the response, what is bound after it. */
  function Bracketed(store: N.Store, grid: nat, response: Bytes): seq<Bytes> {
    N.Payloads(N.Bound(store.before, grid)) + IfAny(response) + N.Payloads(N.Bound(store.after, grid))
  }

  lemma PayloadsSplit(items: seq<N.Item>, plan: seq<Bytes>, i: nat)
    requires i <= |items|
    ensures plan + N.Payloads(items) == plan + N.Payloads(items[..i]) + N.Payloads(items[i..])
    ensures i > 0 ==> plan + N.Payloads(items[..i]) == plan + N.Payloads(items[..i - 1]) + [items[i - 1].data]
    ensures i == 0 ==> plan + N.Payloads(items[..i]) == plan
  {
  }

  lemma BracketParts(a: seq<Bytes>, b: seq<Bytes>, c: seq<Bytes>)
    ensures a + (b + c) == a + b + c
  {
  }

  /** The bindings once those of `grid` have been fetched: the ones before its response, or `both` kinds. */
  function Taken(store: N.Store, grid: nat, both: bool): N.Store {
    var taken := N.ApplyOp(store, N.Take(N.Before, grid));
    if both then N.ApplyOp(taken, N.Take(N.After, grid)) else taken
  }

  /** What a push of `data` under number `n` shows on the wire. */
  ghost predicate Shows(q: Queue, p: nat, n: nat, data: Bytes, w: World) {
    p < |q.firsts| && w.encode(n, data).Some? && FrameOf(q.firsts[p].msg) == Frame(n, w.encode(n, data).value)
  }

  /** From place `p` on the wire shows `datas`, in their order, under numbers from `n` on. */
  ghost predicate ShowsAll(q: Queue, p: nat, n: nat, datas: seq<Bytes>, w: World) {
    forall k: nat | k < |datas| :: Shows(q, p + k, n + k, datas[k], w)
  }

  /**
   A caught-up session that serves a request shows on the wire, after what was there, the
   notifies bound before the response in binding order, the response unless it is empty,
   and the notifies bound after it in binding order; and nothing else.
   */
  lemma ServesInOrder(store: N.Store, grid: nat, response: Bytes, states: seq<Spec.Session>, w: World, ok: bool)
    requires Trail(states, Bracketed(store, grid, response), w, ok) && CaughtUp(states[0]) && Works(w)
    ensures var q, p, n := states[|states| - 1].queue, |states[0].queue.firsts|, states[0].serverSeq + 1;
            var before, after := N.Payloads(N.Bound(store.before, grid)), N.Payloads(N.Bound(store.after, grid));
            var middle := if response == [] then [] else [response];
            && ok && |q.firsts| == p + |before| + |middle| + |after|
            && ShowsAll(q, p, n, before, w)
            && ShowsAll(q, p + |before|, n + |before|, middle, w)
            && ShowsAll(q, p + |before| + |middle|, n + |before| + |middle|, after, w)
  {
    var before, after := N.Payloads(N.Bound(store.before, grid)), N.Payloads(N.Bound(store.after, grid));
    var middle, plan := IfAny(response), Bracketed(store, grid, response);
    var q, p, n := states[|states| - 1].queue, |states[0].queue.firsts|, states[0].serverSeq + 1;
    assert ok && |states| == |plan| + 1 by {
      CaughtUpTrailSucceeds(states, plan, w, ok);
    }
    assert |q.firsts| == p + |plan| by {
      CaughtUpTrail(states, plan, w, ok, |plan|);
    }
    assert ShowsAll(q, p, n, plan, w) by {
      forall k: nat | k < |plan| ensures Shows(q, p + k, n + k, plan[k], w) {
        PlanShows(states, plan, w, ok, k);
      }
    }
    ShowsParts(q, p, n, before, middle, after, w);
  }

  lemma ShowsParts(q: Queue, p: nat, n: nat, a: seq<Bytes>, b: seq<Bytes>, c: seq<Bytes>, w: World)
    requires ShowsAll(q, p, n, a + b + c, w)
    ensures ShowsAll(q, p, n, a, w) && ShowsAll(q, p + |a|, n + |a|, b, w)
    ensures ShowsAll(q, p + |a| + |b|, n + |a| + |b|, c, w)
  {
    ShowsPart(q, p, n, a + b, c, w);
    ShowsPart(q, p, n, a, b, w);
  }

  lemma ShowsPart(q: Queue, p: nat, n: nat, a: seq<Bytes>, b: seq<Bytes>, w: World)
    requires ShowsAll(q, p, n, a + b, w)
    ensures ShowsAll(q, p, n, a, w) && ShowsAll(q, p + |a|, n + |a|, b, w)
  {
    forall k: nat | k < |a| ensures Shows(q, p + k, n + k, a[k], w) {
      assert (a + b)[k] == a[k];
    }
    forall k: nat | k < |b| ensures Shows(q, p + |a| + k, n + |a| + k, b[k], w) {
      assert (a + b)[|a| + k] == b[k];
      assert Shows(q, p + (|a| + k), n + (|a| + k), (a + b)[|a| + k], w);
    }
  }

  lemma PlanShows(states: seq<Spec.Session>, plan: seq<Bytes>, w: World, ok: bool, k: nat)
    requires Trail(states, plan, w, ok) && CaughtUp(states[0]) && Works(w) && k < |plan|
    ensures Shows(states[|states| - 1].queue, |states[0].queue.firsts| + k, states[0].serverSeq + 1 + k, plan[k], w)
  {
    CaughtUpTrailSucceeds(states, plan, w, ok);
    CaughtUpTrail(states, plan, w, ok, |plan|);
    var q := states[|plan|].queue;
    assert q.firsts[|states[0].queue.firsts| + k] == Direct(plan[k], w, states[0].serverSeq + 1 + k);
  }

  class Session {
    const id: string
    var openID: string
    var status: Spec.Status
    var zone: int
    var closed: bool
    var serverSeq: nat
    var lastActivity: int
    var clientAckServerSeq: nat
    var maxClientSeq: nat
    const orderedQueue: OrderedMessageQueue
    const orderingManager: MessageOrderingManager

    ghost const number: nat
    ghost var past: Past

    ghost predicate Valid()
      reads this, orderedQueue, orderedQueue.waitingQueue
    {
      orderedQueue.Valid() && |past.names| == serverSeq
    }

    ghost function State(): Spec.Session
      reads this, orderedQueue, orderedQueue.waitingQueue
    {
      Spec.Session(openID, status, zone, closed, serverSeq, clientAckServerSeq, maxClientSeq,
                   orderedQueue.State(), past.names, past.base, past.pred, past.admitted)
    }

    constructor (id: string, openID: string, now: int, ghost number: nat)
      ensures Valid() && State() == Spec.NewSession(openID)
      ensures this.id == id && this.number == number && lastActivity == now
      ensures fresh(orderedQueue) && fresh(orderedQueue.waitingQueue) && fresh(orderingManager)
      ensures orderingManager.State() == N.EMPTY
    {
      this.id, this.openID, this.number := id, openID, number;
      status, zone, closed, lastActivity := Spec.Inited, 0, false, now;
      serverSeq, clientAckServerSeq, maxClientSeq := 0, 0, 0;
      past := Past([], 0, None, []);
      orderedQueue := new OrderedMessageQueue(Spec.QUEUE_SIZE);
      orderingManager := new MessageOrderingManager();
    }

    /** Takes the next number, for a message with payload `data`. */
    method NewServerSeq(ghost data: Bytes) returns (n: nat)
      requires Valid()
      modifies this`serverSeq, this`past
      ensures Valid() && n == old(serverSeq) + 1
      ensures State() == Spec.AfterAlloc(old(State()), data)
    {
      serverSeq := serverSeq + 1;
      past := past.(names := past.names + [data]);
      n := serverSeq;
    }

    /** Reports whether the session was closed already. */
    method SetClosed() returns (already: bool)
      requires Valid()
      modifies this`closed
      ensures Valid() && already == old(closed)
      ensures State() == old(State()).(closed := true)
    {
      already := closed;
      closed := true;
    }

    /** Stops the queue, unless the session was marked closed before. */
    method Close()
      requires Valid()
      modifies this`closed, orderedQueue
      ensures Valid()
      ensures State() == old(State()).(
        closed := true,
        queue := if old(closed) then old(State()).queue else AfterStop(old(State()).queue))
    {
      if closed {
        return;
      }
      closed := true;
      orderedQueue.Stop();
    }

    method UpdateActivity(now: int)
      requires Valid()
      modifies this`lastActivity
      ensures Valid() && lastActivity == now && State() == old(State())
    {
      lastActivity := now;
    }

    method ActivateSession(zone: int) returns (ok: bool)
      requires Valid()
      modifies this`status, this`zone
      ensures Valid() && ok == (old(status) == Spec.Inited)
      ensures State() == if ok then old(State()).(status := Spec.Normal, zone := zone) else old(State())
    {
      if status != Spec.Inited {
        return false;
      }
      status := Spec.Normal;
      this.zone := zone;
      return true;
    }

    method ValidateClientSeq(clientSeq: nat) returns (ok: bool)
      requires Valid()
      modifies this`maxClientSeq, this`past
      ensures Valid() && ok == Spec.Admits(old(maxClientSeq), clientSeq)
      ensures State() == Spec.AfterRequest(old(State()), clientSeq)
    {
      if maxClientSeq == 0 {
        maxClientSeq := clientSeq;
        past := past.(admitted := past.admitted + [clientSeq]);
        return true;
      }
      if clientSeq == maxClientSeq + 1 {
        maxClientSeq := clientSeq;
        past := past.(admitted := past.admitted + [clientSeq]);
        return true;
      }
      return false;
    }

    /** Takes over zone, counters and status of `former`. */
    method CopyFrom(former: Session)
      requires Valid() && State() == Spec.NewSession(openID) && former.Valid() && former != this
      modifies this`zone, this`serverSeq, this`status, this`clientAckServerSeq, this`maxClientSeq, this`past
      ensures Valid()
      ensures State() == Spec.Succeeding(old(former.State()), former.number, openID)
    {
      ghost var was, q := former.State(), orderedQueue.State();
      zone := former.zone;
      serverSeq := former.serverSeq;
      if former.status == Spec.Normal {
        status := Spec.Normal;
      }
      clientAckServerSeq := former.clientAckServerSeq;
      maxClientSeq := former.maxClientSeq;
      past := Past(former.past.names, former.serverSeq, Some(former.number), former.past.admitted);
      assert orderedQueue.State() == q && status == was.status;
    }

    /** Takes over from `former`, and resynchronises the queue with what the client of `former` had acknowledged. */
    method InheritFrom(former: Session)
      requires Valid() && State() == Spec.NewSession(openID) && former.Valid() && former != this
      requires former.orderedQueue != orderedQueue && former.orderedQueue.waitingQueue != orderedQueue.waitingQueue
      modifies this`zone, this`serverSeq, this`status, this`clientAckServerSeq, this`maxClientSeq, this`past
      modifies orderedQueue
      ensures Valid()
      ensures orderedQueue.waitingQueue == old(orderedQueue.waitingQueue) || fresh(orderedQueue.waitingQueue)
      ensures State() == Spec.Succeeding(old(former.State()), former.number, openID).(
        queue := AfterResync(Init(Spec.QUEUE_SIZE), old(former.clientAckServerSeq)))
    {
      CopyFrom(former);
      orderedQueue.ResyncSequence(former.clientAckServerSeq);
    }

    /** Takes a number, encodes the message under it, and enqueues it. */
    method SendOrderedMessage(payload: Bytes, w: World) returns (r: SendOutcome, ghost burst: seq<OrderedMessage>)
      requires Valid()
      modifies this`serverSeq, this`past, orderedQueue, orderedQueue.waitingQueue
      ensures Valid() && orderedQueue.waitingQueue == old(orderedQueue.waitingQueue)
      ensures Pushes(old(State()), payload, w, r, burst, State())
    {
      burst := [];
      var data := w.encode(serverSeq + 1, payload);
      var n := NewServerSeq(if data.Some? then data.value else []);
      if data.None? {
        return EncodeFailed, burst;
      }
      var outcome;
      outcome, burst := orderedQueue.EnqueueMessage(n, data.value, w.clock(n), Callback(closed, w, n));
      r := Enqueued(outcome);
    }

    /** Pushes one message more of a series that has gone well so far. */
    method SendNext(payload: Bytes, w: World, ghost plan: seq<Bytes>, ghost trail: seq<Spec.Session>)
      returns (ok: bool, ghost longer: seq<Spec.Session>)
      requires Valid() && Trail(trail, plan, w, true) && trail[|plan|] == State()
      modifies this`serverSeq, this`past, orderedQueue, orderedQueue.waitingQueue
      ensures Valid() && orderedQueue.waitingQueue == old(orderedQueue.waitingQueue)
      ensures Trail(longer, plan + [payload], w, ok)
      ensures longer[0] == trail[0] && longer[|longer| - 1] == State()
    {
      var r;
      ghost var burst;
      r, burst := SendOrderedMessage(payload, w);
      ok := r == Enqueued(Accepted);
      TrailExtends(trail, plan, payload, w, ok, State());
      longer := trail + [State()];
    }

    /** Pushes the items in their order, until one push fails. */
    method SendNotifies(items: seq<N.Item>, w: World, ghost plan: seq<Bytes>, ghost trail: seq<Spec.Session>)
      returns (ok: bool, ghost longer: seq<Spec.Session>)
      requires Valid() && Trail(trail, plan, w, true) && trail[|plan|] == State()
      modifies this`serverSeq, this`past, orderedQueue, orderedQueue.waitingQueue
      ensures Valid() && orderedQueue.waitingQueue == old(orderedQueue.waitingQueue)
      ensures Trail(longer, plan + N.Payloads(items), w, ok)
      ensures longer[0] == trail[0] && longer[|longer| - 1] == State()
    {
      ok, longer := true, trail;
      PayloadsSplit(items, plan, 0);
      for i := 0 to |items|
        invariant Valid() && orderedQueue.waitingQueue == old(orderedQueue.waitingQueue)
        invariant ok && Trail(longer, plan + N.Payloads(items[..i]), w, true)
        invariant longer[0] == trail[0] && longer[|longer| - 1] == State()
      {
        PayloadsSplit(items, plan, i + 1);
        ok, longer := SendNext(items[i].data, w, plan + N.Payloads(items[..i]), longer);
        if !ok {
          TrailFailsEarly(longer, plan + N.Payloads(items[..i + 1]), N.Payloads(items[i + 1..]), w);
          return;
        }
      }
      assert items[..|items|] == items;
    }

    /** Pushes a response, unless it is empty. */
    method SendResponse(response: Bytes, w: World, ghost plan: seq<Bytes>, ghost trail: seq<Spec.Session>)
      returns (ok: bool, ghost longer: seq<Spec.Session>)
      requires Valid() && Trail(trail, plan, w, true) && trail[|plan|] == State()
      modifies this`serverSeq, this`past, orderedQueue, orderedQueue.waitingQueue
      ensures Valid() && orderedQueue.waitingQueue == old(orderedQueue.waitingQueue)
      ensures Trail(longer, plan + IfAny(response), w, ok)
      ensures longer[0] == trail[0] && longer[|longer| - 1] == State()
    {
      if |response| == 0 {
        assert plan + [] == plan;
        return true, trail;
      }
      ok, longer := SendNext(response, w, plan, trail);
    }

    method SendBeforeNotifies(grid: nat, w: World) returns (ok: bool, ghost trail: seq<Spec.Session>)
      requires Valid()
      modifies this`serverSeq, this`past, orderedQueue, orderedQueue.waitingQueue, orderingManager
      ensures Valid() && orderedQueue.waitingQueue == old(orderedQueue.waitingQueue)
      ensures Trail(trail, N.Payloads(N.Bound(old(orderingManager.State()).before, grid)), w, ok)
      ensures trail[0] == old(State()) && trail[|trail| - 1] == State()
      ensures orderingManager.State() == Taken(old(orderingManager.State()), grid, false)
    {
      var before := orderingManager.GetAndRemoveBeforeNotifies(grid);
      assert [] + N.Payloads(before) == N.Payloads(before);
      ok, trail := SendNotifies(before, w, [], [State()]);
    }

    method SendAfterNotifies(grid: nat, w: World, ghost plan: seq<Bytes>, ghost trail: seq<Spec.Session>)
      returns (ok: bool, ghost longer: seq<Spec.Session>)
      requires Valid() && Trail(trail, plan, w, true) && trail[|plan|] == State()
      modifies this`serverSeq, this`past, orderedQueue, orderedQueue.waitingQueue, orderingManager
      ensures Valid() && orderedQueue.waitingQueue == old(orderedQueue.waitingQueue)
      ensures Trail(longer, plan + N.Payloads(N.Bound(old(orderingManager.State()).after, grid)), w, ok)
      ensures longer[0] == trail[0] && longer[|longer| - 1] == State()
      ensures orderingManager.State() == N.ApplyOp(old(orderingManager.State()), N.Take(N.After, grid))
    {
      var after := orderingManager.GetAndRemoveAfterNotifies(grid);
      ok, longer := SendNotifies(after, w, plan, trail);
    }

    /**
     Pushes what is bound before the response to `grid`, the response, and what is bound
     after it, until a push fails; the bindings that were reached are forgotten.
     */
    method ProcWithNotifyBinds(response: Bytes, grid: nat, w: World) returns (ok: bool, ghost trail: seq<Spec.Session>)
      requires Valid()
      modifies this`serverSeq, this`past, orderedQueue, orderedQueue.waitingQueue, orderingManager
      ensures Valid() && orderedQueue.waitingQueue == old(orderedQueue.waitingQueue)
      ensures Trail(trail, Bracketed(old(orderingManager.State()), grid, response), w, ok)
      ensures trail[0] == old(State()) && trail[|trail| - 1] == State()
      ensures orderingManager.State() == Taken(old(orderingManager.State()), grid, false)
              || orderingManager.State() == Taken(old(orderingManager.State()), grid, true)
      ensures ok ==> orderingManager.State() == Taken(old(orderingManager.State()), grid, true)
    {
      ghost var store := orderingManager.State();
      ghost var first, tail := N.Payloads(N.Bound(store.before, grid)), N.Payloads(N.Bound(store.after, grid));
      ghost var head := IfAny(response);
      BracketParts(first, head, tail);
      ok, trail := SendBeforeNotifies(grid, w);
      if !ok {
        TrailFailsEarly(trail, first, head + tail, w);
        return;
      }
      ok, trail := SendResponse(response, w, first, trail);
      if !ok {
        TrailFailsEarly(trail, first + head, tail, w);
        return;
      }
      ok, trail := SendAfterNotifies(grid, w, first + head, trail);
    }

    /** What the queue's ticker does: clean up, then retry. */
    method Tick(now: int, stream: nat -> bool)
      requires Valid()
      modifies orderedQueue
      ensures Valid() && fresh(orderedQueue.waitingQueue)
      ensures State() == AfterTick(old(State()), now, Answering(closed, stream))
    {
      orderedQueue.CleanupExpiredMessages(now);
      orderedQueue.RetryTimedOutMessages(now, Answering(closed, stream));
    }

    method ResyncSession(a: nat)
      requires Valid()
      modifies orderedQueue
      ensures Valid()
      ensures orderedQueue.waitingQueue == old(orderedQueue.waitingQueue) || fresh(orderedQueue.waitingQueue)
      ensures State() == Spec.AfterClientResync(old(State()), a)
    {
      orderedQueue.ResyncSequence(a);
    }
  }

  /** How long the session of a lost connection is kept for its client. */
  const CONNECTION_DOWN_DELAY := 30 * SECOND

  class SessionManager {
    var sessions: map<string, Session>
    var sessionsByUID: map<string, Session>

    constructor ()
      ensures sessions == map[] && sessionsByUID == map[]
    {
      sessions, sessionsByUID := map[], map[];
    }

    /**
     A connection of `openID` takes over the session indexed under that user, if that was
     active lately and is still registered under its own id.
     */
    ghost predicate TakesOver(openID: string, now: int)
      reads this, sessionsByUID.Values
    {
      && openID != "" && openID in sessionsByUID
      && now - sessionsByUID[openID].lastActivity < 2 * CONNECTION_DOWN_DELAY
      && sessionsByUID[openID].id in sessions && sessions[sessionsByUID[openID].id] == sessionsByUID[openID]
    }

    /** Lets `newSession` take over from `former`, which is closed. */
    method HandOver(former: Session, newSession: Session)
      requires newSession.Valid() && newSession.State() == Spec.NewSession(newSession.openID)
      requires former.Valid() && former != newSession && former.orderedQueue != newSession.orderedQueue
      requires former.orderedQueue.waitingQueue != newSession.orderedQueue.waitingQueue
      modifies former`closed, newSession, newSession.orderedQueue
      ensures newSession.Valid() && newSession.lastActivity == old(newSession.lastActivity)
      ensures newSession.State() == Spec.Inherited(old(former.State()), former.number, old(newSession.openID))
      ensures former.State() == old(former.State()).(closed := true)
    {
      newSession.InheritFrom(former);
      var _ := former.SetClosed();
      newSession.orderedQueue.sentMessages := former.orderedQueue.sentMessages;
    }

    /** `sessionID` is a name not used before. */
    method CreateOrReconnectSession(sessionID: string, openID: string, now: int, ghost number: nat)
      returns (newSession: Session, isReconnect: bool)
      requires openID in sessionsByUID ==> sessionsByUID[openID].Valid()
      modifies this, if openID in sessionsByUID then {sessionsByUID[openID]} else {}
      ensures fresh(newSession) && newSession.Valid() && newSession.id == sessionID && newSession.number == number
      ensures newSession.lastActivity == now
      ensures isReconnect <==> old(TakesOver(openID, now))
      ensures !isReconnect ==> newSession.State() == Spec.NewSession(openID)
      ensures isReconnect ==>
                var former := old(sessionsByUID[openID]);
                && newSession.State() == Spec.Inherited(old(sessionsByUID[openID].State()), former.number, openID)
                && former.State() == old(sessionsByUID[openID].State()).(closed := true)
                && sessions == (old(sessions) - {former.id})[sessionID := newSession]
      ensures !isReconnect ==> sessions == old(sessions)[sessionID := newSession]
      ensures sessionsByUID == if openID != "" then old(sessionsByUID)[openID := newSession] else old(sessionsByUID)
      ensures !isReconnect && openID in old(sessionsByUID) ==>
                old(sessionsByUID[openID]).State() == old(sessionsByUID[openID].State())
    {
      newSession := new Session(sessionID, openID, now, number);
      isReconnect := false;
      if openID != "" && openID in sessionsByUID
        && now - sessionsByUID[openID].lastActivity < 2 * CONNECTION_DOWN_DELAY
      {
        var former := sessionsByUID[openID];
        if former.id in sessions && sessions[former.id] == former {
          isReconnect := true;
          HandOver(former, newSession);
          sessions := sessions - {former.id};
        }
      }
      sessions := sessions[sessionID := newSession];
      if openID != "" {
        sessionsByUID := sessionsByUID[openID := newSession];
      }
    }

    /**
     A plain store of the acknowledged number, and an ack on the queue; nothing for a session
     that is not registered.
     */
    method AckMessagesUpTo(sessionID: string, a: nat) returns (count: nat)
      requires sessionID in sessions ==> sessions[sessionID].Valid()
      modifies if sessionID in sessions then {sessions[sessionID], sessions[sessionID].orderedQueue} else {}
      ensures sessionID !in sessions ==> count == 0
      ensures sessionID in sessions ==>
                var s := sessions[sessionID];
                && s.Valid() && s.State() == Spec.AfterClientAck(old(sessions[sessionID].State()), a)
                && count == |old(sessions[sessionID].State()).queue.sent| - |s.State().queue.sent|
                && s.orderedQueue.waitingQueue == old(sessions[sessionID].orderedQueue.waitingQueue)
    {
      if sessionID !in sessions {
        return 0;
      }
      var s := sessions[sessionID];
      s.clientAckServerSeq := a;
      count := s.orderedQueue.AckMessagesUpTo(a);
    }

    /** Indexes the session under its user, unless a session of another name is indexed there. */
    method BindSession(session: Session) returns (ok: bool)
      modifies this`sessionsByUID
      ensures ok <==> !old(Occupied(session.openID, session.id))
      ensures sessionsByUID ==
              if ok && session.openID != "" then old(sessionsByUID)[session.openID := session] else old(sessionsByUID)
    {
      if session.openID != "" {
        if session.openID in sessionsByUID && sessionsByUID[session.openID].id != session.id {
          return false;
        }
        sessionsByUID := sessionsByUID[session.openID := session];
      }
      return true;
    }

    ghost predicate Occupied(openID: string, id: string)
      reads this
    {
      openID != "" && openID in sessionsByUID && sessionsByUID[openID].id != id
    }

    method ValidateClientSequence(sessionID: string, clientSeq: nat) returns (ok: bool)
      requires sessionID in sessions ==> sessions[sessionID].Valid()
      modifies if sessionID in sessions then {sessions[sessionID]} else {}
      ensures sessionID !in sessions ==> !ok
      ensures sessionID in sessions ==>
                var s := sessions[sessionID];
                && ok == Spec.Admits(old(sessions[sessionID].maxClientSeq), clientSeq)
                && s.Valid() && s.State() == Spec.AfterRequest(old(sessions[sessionID].State()), clientSeq)
    {
      if sessionID !in sessions {
        return false;
      }
      ok := sessions[sessionID].ValidateClientSeq(clientSeq);
    }
  }

  /** The manager knows the session by its name, or does not know the name. */
  ghost predicate KnownAs(manager: SessionManager, sess: Session)
    reads manager
  {
    sess.id in manager.sessions ==> manager.sessions[sess.id] == sess
  }

  /** An ACK message, if it parses: acknowledge, then resynchronise. It succeeds if something was acknowledged. */
  method HandleAck(manager: SessionManager, sess: Session, reqSeq: nat, ack: Option<nat>) returns (ok: bool)
    requires sess.Valid() && KnownAs(manager, sess)
    modifies sess, sess.orderedQueue
    ensures sess.Valid()
    ensures sess.State() == if reqSeq != 0 || ack.None? then old(sess.State())
                            else Spec.AfterAckMessage(old(sess.State()), sess.id in manager.sessions, ack.value)
    ensures ok <==> reqSeq == 0 && ack.Some? && sess.id in manager.sessions
                    && exists k | k in old(sess.State()).queue.sent :: k <= ack.value
  {
    if reqSeq != 0 {
      return false;
    }
    if ack.None? {
      return false;
    }
    var a := ack.value;
    AckedSome(sess.State().queue, a);
    var count := manager.AckMessagesUpTo(sess.id, a);
    sess.ResyncSession(a);
    ok := count > 0;
  }

  lemma AckedSome(q: Queue, a: nat)
    ensures |AfterAck(q, a).sent| < |q.sent| <==> exists k | k in q.sent :: k <= a
  {
    var kept := AfterAck(q, a).sent;
    assert kept.Keys <= q.sent.Keys && |kept| == |kept.Keys| && |q.sent| == |q.sent.Keys|;
    assert q.sent.Keys == kept.Keys + (q.sent.Keys - kept.Keys);
    if k :| k in q.sent && k <= a {
      assert k in q.sent.Keys - kept.Keys;
    } else {
      assert kept.Keys == q.sent.Keys;
    }
  }

  /** The acknowledgement that a START carries. */
  method AcceptStart(manager: SessionManager, sess: Session, a: nat)
    requires sess.Valid() && KnownAs(manager, sess)
    modifies sess, sess.orderedQueue
    ensures sess.Valid() && sess.State() == Spec.AfterStart(old(sess.State()), sess.id in manager.sessions, a)
    ensures sess.orderedQueue.waitingQueue == old(sess.orderedQueue.waitingQueue)
            || fresh(sess.orderedQueue.waitingQueue)
  {
    if a > 0 {
      var _ := manager.AckMessagesUpTo(sess.id, a);
      sess.ResyncSession(a);
    }
  }

  /** What a START message says, if it parses. */
  datatype StartRequest = StartRequest(openID: string, lastAcked: nat)

  datatype Verdict = BadNumber | BadPayload | NoUser | UserTaken | Fine

  /** How a START is judged. */
  ghost function Judge(manager: SessionManager, sess: Session, reqSeq: nat, req: Option<StartRequest>): Verdict
    reads manager
  {
    if reqSeq != 0 then BadNumber
    else if req.None? then BadPayload
    else if req.value.openID == "" then NoUser
    else if manager.Occupied(req.value.openID, sess.id) then UserTaken
    else Fine
  }

  /**
   The session when its START is answered: it has taken the user's name if one was given, and
   the acknowledgement if all was fine.
   */
  ghost function Started(s: Spec.Session, live: bool, v: Verdict, req: Option<StartRequest>): Spec.Session {
    if req.None? then s
    else match v
      case UserTaken => s.(openID := req.value.openID)
      case Fine => Spec.AfterStart(s.(openID := req.value.openID), live, req.value.lastAcked)
      case _ => s
  }

  /** Checks a START, and binds the session to the user. Both the name and the index may have changed. */
  method CheckStart(manager: SessionManager, sess: Session, reqSeq: nat, req: Option<StartRequest>) returns (v: Verdict)
    requires sess.Valid()
    modifies sess`openID, manager`sessionsByUID
    ensures sess.Valid() && v == old(Judge(manager, sess, reqSeq, req))
    ensures sess.State() ==
            if v in {UserTaken, Fine} then old(sess.State()).(openID := req.value.openID) else old(sess.State())
    ensures v in {UserTaken, Fine} ==> req.Some?
    ensures manager.sessionsByUID ==
            if v == Fine then old(manager.sessionsByUID)[req.value.openID := sess] else old(manager.sessionsByUID)
  {
    if reqSeq != 0 {
      return BadNumber;
    }
    if req.None? {
      return BadPayload;
    }
    if req.value.openID == "" {
      return NoUser;
    }
    sess.openID := req.value.openID;
    var bound := manager.BindSession(sess);
    v := if bound then Fine else UserTaken;
  }

  /** A START: it is refused with an error, or its acknowledgement is applied and it is answered. */
  method HandleStart(
      manager: SessionManager, sess: Session, reqSeq: nat, req: Option<StartRequest>,
      answer: Bytes, refusal: Verdict -> Bytes, w: World)
    returns (ok: bool, ghost r: SendOutcome, ghost burst: seq<OrderedMessage>)
    requires sess.Valid() && KnownAs(manager, sess)
    modifies sess, sess.orderedQueue, sess.orderedQueue.waitingQueue, manager`sessionsByUID
    ensures sess.Valid()
    ensures var v := old(Judge(manager, sess, reqSeq, req));
            && Pushes(Started(old(sess.State()), sess.id in manager.sessions, v, req),
                      if v == Fine then answer else refusal(v), w, r, burst, sess.State())
            && (ok <==> v == Fine && r == Enqueued(Accepted))
            && manager.sessionsByUID ==
               if v == Fine then old(manager.sessionsByUID)[req.value.openID := sess] else old(manager.sessionsByUID)
  {
    var v := CheckStart(manager, sess, reqSeq, req);
    var outcome;
    if v != Fine {
      outcome, burst := sess.SendOrderedMessage(refusal(v), w);
      return false, outcome, burst;
    }
    AcceptStart(manager, sess, req.value.lastAcked);
    outcome, burst := sess.SendOrderedMessage(answer, w);
    r := outcome;
    ok := outcome == Enqueued(Accepted);
  }
}
