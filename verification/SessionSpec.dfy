/** The session state that outlives a connection, and how a reconnecting session inherits it. */
module SessionSpec {
  import opened Common
  import opened QueueSpec

  datatype Status = Inited | Normal

  const QUEUE_SIZE := 1000

  /**
   `status`, `zone`, `closed`, the three counters and `queue` are the session's own
   fields. History: `names[n - 1]` is the payload for which number n was taken, `base`
   the counter inherited at creation, `pred` the session inherited from, and `admitted`
   the request numbers let through, inherited ones first.
   */
  datatype Session = Session(
    openID: string,
    status: Status,
    zone: int,
    closed: bool,
    serverSeq: nat,
    clientAck: nat,
    maxClientSeq: nat,
    queue: Queue,
    names: seq<Bytes>,
    base: nat,
    pred: Option<nat>,
    admitted: seq<nat>)

  ghost function NewSession(openID: string): Session {
    Session(openID, Inited, 0, false, 0, 0, 0, Init(QUEUE_SIZE), [], 0, None, [])
  }

  /** A new session with the zone, counters and status of `former`, the session numbered `id`. */
  ghost function Succeeding(former: Session, id: nat, openID: string): Session {
    Session(openID, former.status, former.zone, false, former.serverSeq, former.clientAck, former.maxClientSeq,
            Init(QUEUE_SIZE), former.names, former.serverSeq, Some(id), former.admitted)
  }

  /** The same, its queue resynchronised and holding the messages that `former` has sent and still keeps. */
  ghost function Inherited(former: Session, id: nat, openID: string): Session {
    Succeeding(former, id, openID).(
      queue := AfterResync(Init(QUEUE_SIZE), former.clientAck).(sent := former.queue.sent))
  }

  /** What a take-over reads of the predecessor besides its histories, and may have read a while ago. */
  datatype Seen = Seen(zone: int, status: Status, clientAck: nat)

  function SeenOf(s: Session): Seen {
    Seen(s.zone, s.status, s.clientAck)
  }

  function WithSeen(s: Session, seen: Seen): Session {
    s.(zone := seen.zone, status := seen.status, clientAck := seen.clientAck)
  }

  /** The heir of `former`, of which `seen` was read earlier. */
  ghost function InheritedAs(former: Session, id: nat, openID: string, seen: Seen): Session {
    Inherited(WithSeen(former, seen), id, openID)
  }

  ghost function AfterAlloc(s: Session, data: Bytes): Session {
    s.(serverSeq := s.serverSeq + 1, names := s.names + [data])
  }

  /** A client's acknowledgement: a plain store of the number, and an ack on the queue. */
  ghost function AfterClientAck(s: Session, a: nat): Session {
    s.(clientAck := a, queue := AfterAck(s.queue, a))
  }

  ghost function AfterClientResync(s: Session, a: nat): Session {
    s.(queue := AfterResync(s.queue, a))
  }

  /**
   An acknowledgement that arrives: the manager passes it on if the session is `live`, that
   is registered; the resync comes in any case.
   */
  ghost function AfterAckMessage(s: Session, live: bool, a: nat): Session {
    AfterClientResync(if live then AfterClientAck(s, a) else s, a)
  }

  /** What a START that reports `a` as last acknowledged does before it is answered. */
  ghost function AfterStart(s: Session, live: bool, a: nat): Session {
    if a > 0 then AfterAckMessage(s, live, a) else s
  }

  /** A request number is let through when no nonzero number has been, or when it is the next one. */
  predicate Admits(maxClientSeq: nat, clientSeq: nat) {
    maxClientSeq == 0 || clientSeq == maxClientSeq + 1
  }

  ghost function AfterRequest(s: Session, clientSeq: nat): Session {
    if Admits(s.maxClientSeq, clientSeq)
    then s.(maxClientSeq := clientSeq, admitted := s.admitted + [clientSeq])
    else s
  }
}
