/**
 All sessions of the gateway over any run: creation, reconnection, removal and expiry,
 the numbers taken and the messages enqueued on each session, acknowledgements, timers
 and requests, in any order. Creating or reconnecting a session is one step, but zone,
 status and acknowledgement of the predecessor may have been read some time before.
 */
module Reconnect {
  import opened Common
  import opened QueueSpec
  import opened QueueHistory
  import opened SessionSpec

  /** `all` lists the sessions ever created; `sessions` and `byUID` are the manager's two indexes. */
  datatype Manager = Manager(all: seq<Session>, sessions: set<nat>, byUID: map<string, nat>)

  datatype ManagerStep =
    | Create(openID: string, recent: bool, seen: Seen)
    | Bind(i: nat, openID: string)
    | Close(i: nat)
    | Remove(i: nat)
    | Expire(i: nat)
    | Activate(i: nat, zone: int)
    | Alloc(i: nat, data: Bytes)
    | Push(i: nat, n: nat, now: int, link: nat -> bool, burst: seq<OrderedMessage>)
    | ClientAck(i: nat, a: nat)
    | ClientResync(i: nat, a: nat)
    | Timer(i: nat, step: Step)
    | Request(i: nat, clientSeq: nat)

  /** The callback of a closed session fails. */
  ghost predicate Silenced(s: Session, link: nat -> bool) {
    s.closed ==> forall n :: !link(n)
  }

  ghost predicate SessionEnabled(s: Session, step: ManagerStep) {
    match step
    case Push(_, n, _, link, burst) =>
      s.base < n <= |s.names| && Silenced(s, link) && EnqueueEnabled(s.queue, n, link, burst)
    case Timer(_, inner) => (inner.Cleanup? || inner.Retry?) && (inner.Retry? ==> Silenced(s, inner.link))
    case _ => true
  }

  ghost predicate ManagerEnabled(m: Manager, step: ManagerStep) {
    step.Create? || (step.i < |m.all| && SessionEnabled(m.all[step.i], step))
  }

  /**
   The session that a connection of `openID` takes over: the one indexed under that user, if
   recent and still registered.
   */
  function Predecessor(m: Manager, openID: string, recent: bool): Option<nat> {
    if openID != "" && openID in m.byUID && recent && m.byUID[openID] in m.sessions && m.byUID[openID] < |m.all|
    then Some(m.byUID[openID]) else None
  }

  ghost function Created(m: Manager, openID: string, recent: bool, seen: Seen): Manager {
    var id := |m.all|;
    var uids := if openID != "" then m.byUID[openID := id] else m.byUID;
    match Predecessor(m, openID, recent)
    case None => Manager(m.all + [NewSession(openID)], m.sessions + {id}, uids)
    case Some(former) =>
      Manager(m.all[former := m.all[former].(closed := true)] + [InheritedAs(m.all[former], former, openID, seen)],
              m.sessions - {former} + {id}, uids)
  }

  /** Closing stops the queue unless the session had been marked closed before. */
  ghost function Closed(s: Session): Session {
    if s.closed then s else s.(closed := true, queue := AfterStop(s.queue))
  }

  /** What a step does to its session, which is `live` if the manager has it registered. */
  ghost function SessionAfter(s: Session, live: bool, step: ManagerStep): Session
    requires SessionEnabled(s, step)
  {
    match step
    case Create(_, _, _) => s
    case Bind(_, openID) => s.(openID := openID)
    case Close(_) => if live then s.(closed := true) else s
    case Remove(_) => if live then s.(closed := true) else s
    case Expire(_) => if live then Closed(s) else s
    case Activate(_, zone) => if live && s.status == Inited then s.(status := Normal, zone := zone) else s
    case Alloc(_, data) => AfterAlloc(s, data)
    case Push(_, n, now, link, burst) => s.(queue := AfterEnqueue(s.queue, n, s.names[n - 1], now, link, burst))
    case ClientAck(_, a) => if live then AfterClientAck(s, a) else s
    case ClientResync(_, a) => AfterClientResync(s, a)
    case Timer(_, inner) => s.(queue := Apply(s.queue, inner))
    case Request(_, clientSeq) => if live then AfterRequest(s, clientSeq) else s
  }

  /**
   A START names the session's user, and the index follows unless another session holds the
   name; removal drops the name.
   */
  function UIDsAfter(m: Manager, step: ManagerStep): map<string, nat>
    requires step.Create? || step.i < |m.all|
  {
    match step
    case Bind(i, openID) =>
      if openID == "" || (openID in m.byUID && m.byUID[openID] != i) then m.byUID else m.byUID[openID := i]
    case Remove(i) => if i in m.sessions then m.byUID - {m.all[i].openID} else m.byUID
    case _ => m.byUID
  }

  ghost function ManagerApply(m: Manager, step: ManagerStep): Manager
    requires ManagerEnabled(m, step)
  {
    if step.Create? then Created(m, step.openID, step.recent, step.seen)
    else
      Manager(m.all[step.i := SessionAfter(m.all[step.i], step.i in m.sessions, step)],
              if step.Remove? || step.Expire? then m.sessions - {step.i} else m.sessions,
              UIDsAfter(m, step))
  }

  ghost predicate ManagerStepAt(states: seq<Manager>, steps: seq<ManagerStep>, k: nat)
    requires |states| == |steps| + 1 && k < |steps|
  {
    ManagerEnabled(states[k], steps[k]) && states[k + 1] == ManagerApply(states[k], steps[k])
  }

  ghost predicate IsManagerRun(states: seq<Manager>, steps: seq<ManagerStep>) {
    && |states| == |steps| + 1 && states[0] == Manager([], {}, map[])
    && forall k: nat | k < |steps| :: ManagerStepAt(states, steps, k)
  }

  // ---------- One session ----------

  ghost predicate Named(names: seq<Bytes>, n: nat, data: Bytes) {
    1 <= n <= |names| && names[n - 1] == data
  }

  /** Whatever the session holds or has put on the wire carries the payload for which its number was taken. */
  ghost predicate Consistent(q: Queue, names: seq<Bytes>) {
    && (forall m | m in q.waiting :: Named(names, m.serverSeq, m.data))
    && (forall k | k in q.sent :: Named(names, k, q.sent[k].data))
    && (forall i | 0 <= i < |q.firsts| :: Named(names, q.firsts[i].msg.serverSeq, q.firsts[i].msg.data))
    && (forall f | f in q.resends :: Named(names, f.serverSeq, f.data))
  }

  ghost predicate Sound(s: Session) {
    && |s.names| == s.serverSeq && s.base <= s.serverSeq
    && Consistent(s.queue, s.names)
  }

  lemma WireIsNamed(s: Session, f: Frame)
    requires Sound(s) && OnWire(s.queue, f)
    ensures Named(s.names, f.serverSeq, f.data)
  {
  }

  /** No message is kept under number zero. */
  lemma NoZeroKept(s: Session)
    requires Sound(s)
    ensures 0 !in s.queue.sent
  {
  }

  lemma AllocStaysSound(s: Session, data: Bytes)
    requires Sound(s)
    ensures Sound(AfterAlloc(s, data))
  {
    forall n: nat, d | Named(s.names, n, d) ensures Named(s.names + [data], n, d) {
    }
  }

  lemma FirstIsNamed(q: Queue, names: seq<Bytes>, ms: seq<OrderedMessage>, now: int, i: nat)
    requires Consistent(q, names) && i < |Transmit(q, ms, now).firsts|
    requires forall j | 0 <= j < |ms| :: Named(names, ms[j].serverSeq, ms[j].data)
    ensures var m := Transmit(q, ms, now).firsts[i].msg; Named(names, m.serverSeq, m.data)
  {
    if i >= |q.firsts| {
      assert Transmit(q, ms, now).firsts[i].msg == ms[i - |q.firsts|];
    }
  }

  lemma SentIsNamed(q: Queue, names: seq<Bytes>, ms: seq<OrderedMessage>, now: int, k: nat)
    requires Consistent(q, names) && Consecutive(ms, q.next) && k in Transmit(q, ms, now).sent
    requires forall j | 0 <= j < |ms| :: Named(names, ms[j].serverSeq, ms[j].data)
    ensures Named(names, k, Transmit(q, ms, now).sent[k].data)
  {
    if q.next <= k < q.next + |ms| {
      assert Transmit(q, ms, now).sent[k] == ms[k - q.next].(sent := true);
    }
  }

  lemma TransmitStaysConsistent(q: Queue, names: seq<Bytes>, ms: seq<OrderedMessage>, now: int)
    requires Consistent(q, names) && Consecutive(ms, q.next)
    requires forall i | 0 <= i < |ms| :: Named(names, ms[i].serverSeq, ms[i].data)
    ensures Consistent(Transmit(q, ms, now), names)
  {
    var t := Transmit(q, ms, now);
    forall i: nat | i < |t.firsts| ensures Named(names, t.firsts[i].msg.serverSeq, t.firsts[i].msg.data) {
      FirstIsNamed(q, names, ms, now, i);
    }
    forall k | k in t.sent ensures Named(names, k, t.sent[k].data) {
      SentIsNamed(q, names, ms, now, k);
    }
  }

  lemma ParkStaysConsistent(q: Queue, names: seq<Bytes>, msg: OrderedMessage)
    requires Consistent(q, names) && Named(names, msg.serverSeq, msg.data)
    ensures Consistent(q.(waiting := q.waiting + multiset{msg}), names)
  {
  }

  lemma UnparkStaysConsistent(q: Queue, names: seq<Bytes>, ms: multiset<OrderedMessage>)
    requires Consistent(q, names) && ms <= q.waiting
    ensures Consistent(q.(waiting := ms), names)
  {
  }

  lemma BurstIsNamed(
      q: Queue, names: seq<Bytes>, msg: OrderedMessage, link: nat -> bool,
      burst: seq<OrderedMessage>, i: nat)
    requires Consistent(q, names) && Named(names, msg.serverSeq, msg.data) && msg.serverSeq == q.next
    requires IsBurst(q.waiting, q.next + 1, link, burst) && i < |[msg] + burst|
    ensures var m := ([msg] + burst)[i]; m.serverSeq == q.next + i && Named(names, m.serverSeq, m.data)
  {
    if i > 0 {
      assert burst[i - 1] in multiset(burst);
    }
  }

  lemma SendStaysConsistent(
      q: Queue, names: seq<Bytes>, msg: OrderedMessage, now: int, link: nat -> bool,
      burst: seq<OrderedMessage>)
    requires Consistent(q, names) && Named(names, msg.serverSeq, msg.data) && msg.serverSeq == q.next
    requires IsBurst(q.waiting, q.next + 1, link, burst)
    ensures Consistent(Transmit(q, [msg] + burst, now).(waiting := q.waiting - multiset(burst)), names)
  {
    var ms := [msg] + burst;
    forall i: nat | i < |ms| ensures ms[i].serverSeq == q.next + i && Named(names, ms[i].serverSeq, ms[i].data) {
      BurstIsNamed(q, names, msg, link, burst, i);
    }
    TransmitStaysConsistent(q, names, ms, now);
    UnparkStaysConsistent(Transmit(q, ms, now), names, q.waiting - multiset(burst));
  }

  lemma PushStaysConsistent(s: Session, n: nat, now: int, link: nat -> bool, burst: seq<OrderedMessage>)
    requires Sound(s) && 1 <= n <= |s.names| && EnqueueEnabled(s.queue, n, link, burst)
    ensures Consistent(AfterEnqueue(s.queue, n, s.names[n - 1], now, link, burst), s.names)
  {
    var q, msg := s.queue, NewMessage(n, s.names[n - 1], now);
    if EnqueueOutcome(q, n, link) == Accepted {
      if n == q.next {
        SendStaysConsistent(q, s.names, msg, now, link, burst);
      } else {
        ParkStaysConsistent(q, s.names, msg);
      }
    }
  }

  lemma RetryStaysConsistent(q: Queue, names: seq<Bytes>, now: int, link: nat -> bool)
    requires Consistent(q, names)
    ensures Consistent(AfterRetry(q, now, link), names)
  {
    var t := AfterRetry(q, now, link);
    forall f | f in t.resends ensures Named(names, f.serverSeq, f.data) {
      assert f !in q.resends ==> f in FramesOf(q.sent, Resent(q, now, link));
    }
  }

  lemma QueueStepStaysSound(s: Session, step: Step)
    requires Sound(s) && !step.Enqueue?
    ensures Sound(s.(queue := Apply(s.queue, step)))
  {
    if step.Retry? {
      RetryStaysConsistent(s.queue, s.names, step.now, step.link);
    } else {
      var t := Apply(s.queue, step);
      assert t.firsts == s.queue.firsts && t.resends == s.queue.resends;
    }
  }

  lemma InheritedIsSound(s: Session, id: nat, openID: string, seen: Seen)
    requires Sound(s)
    ensures Sound(InheritedAs(s, id, openID, seen))
  {
  }

  /** A closed session puts nothing on the wire. */
  lemma SilencedPushSendsNothing(s: Session, n: nat, now: int, link: nat -> bool, burst: seq<OrderedMessage>)
    requires s.closed && Silenced(s, link) && 1 <= n <= |s.names|
    ensures var t := AfterEnqueue(s.queue, n, s.names[n - 1], now, link, burst);
            t.firsts == s.queue.firsts && t.resends == s.queue.resends
  {
  }

  lemma SilencedRetrySendsNothing(s: Session, now: int, link: nat -> bool)
    requires s.closed && Silenced(s, link)
    ensures var t := AfterRetry(s.queue, now, link);
            t.firsts == s.queue.firsts && t.resends == s.queue.resends
  {
    assert FramesOf(s.queue.sent, Resent(s.queue, now, link)) == {};
    assert s.queue.resends + multiset{} == s.queue.resends;
  }

  // ---------- Chains of sessions ----------

  /**
   Session `i` took over from `p`: `p` is older, closed and out of the index, everything it
   has put on the wire is numbered within the counter `i` inherited, and there, and on
   admitted requests, the two agree.
   */
  ghost predicate TookOver(m: Manager, i: nat, p: nat)
    requires i < |m.all|
  {
    && p < i && m.all[p].closed && p !in m.sessions
    && m.all[p].base <= m.all[i].base <= |m.all[p].names| && m.all[i].base <= |m.all[i].names|
    && m.all[i].names[..m.all[i].base] == m.all[p].names[..m.all[i].base]
    && (forall f | OnWire(m.all[p].queue, f) :: f.serverSeq <= m.all[i].base)
    && m.all[p].admitted <= m.all[i].admitted
  }

  ghost predicate Links(m: Manager) {
    && (forall i: nat | i < |m.all| && m.all[i].pred.Some? :: TookOver(m, i, m.all[i].pred.value))
    && (forall i: nat, j: nat | i < j < |m.all| && m.all[i].pred.Some? :: m.all[i].pred != m.all[j].pred)
  }

  ghost predicate AllSound(m: Manager) {
    && (forall i: nat | i < |m.all| :: Sound(m.all[i]))
    && (forall i | i in m.sessions :: i < |m.all|)
  }

  /**
   What a step may do to its session: extend its histories, and nothing that would reach the
   wire once it is closed.
   */
  ghost predicate Evolves(s: Session, u: Session) {
    && u.pred == s.pred && u.base == s.base && s.names <= u.names && s.admitted <= u.admitted
    && (s.closed ==> u.closed && u.queue.firsts == s.queue.firsts && u.queue.resends == s.queue.resends)
  }

  /** What a step other than creation does: one session evolves, and none is registered. */
  ghost predicate Touches(m: Manager, t: Manager, i: nat) {
    && i < |m.all| == |t.all|
    && (forall j: nat | j < |m.all| && j != i :: t.all[j] == m.all[j])
    && t.sessions <= m.sessions
    && Evolves(m.all[i], t.all[i])
    && (i !in m.sessions ==> t.all[i].admitted == m.all[i].admitted)
  }

  lemma SameWire(q: Queue, q': Queue, f: Frame)
    requires OnWire(q, f) && q'.firsts == q.firsts && q'.resends == q.resends
    ensures OnWire(q', f)
  {
    if SentBefore(q, f) {
      var i: nat :| i < |q.firsts| && FirstFrame(q, i) == f;
      assert FirstFrame(q', i) == f;
    }
  }

  lemma TouchesKeepsTakeOver(m: Manager, t: Manager, i: nat, j: nat, p: nat)
    requires Touches(m, t, i) && j < |m.all| && TookOver(m, j, p)
    ensures TookOver(t, j, p)
  {
    forall f | OnWire(t.all[p].queue, f) ensures OnWire(m.all[p].queue, f) {
      SameWire(t.all[p].queue, m.all[p].queue, f);
    }
  }

  lemma TouchesKeepsLinks(m: Manager, t: Manager, i: nat)
    requires Links(m) && Touches(m, t, i)
    ensures Links(t)
  {
    forall j: nat | j < |t.all| && t.all[j].pred.Some? ensures TookOver(t, j, t.all[j].pred.value) {
      TouchesKeepsTakeOver(m, t, i, j, m.all[j].pred.value);
    }
  }

  lemma SessionEvolves(s: Session, live: bool, step: ManagerStep)
    requires SessionEnabled(s, step)
    ensures Evolves(s, SessionAfter(s, live, step))
    ensures !live ==> SessionAfter(s, live, step).admitted == s.admitted
  {
    match step
    case Push(_, n, now, link, burst) =>
      if s.closed {
        SilencedPushSendsNothing(s, n, now, link, burst);
      }
    case Timer(_, inner) =>
      if s.closed && inner.Retry? {
        SilencedRetrySendsNothing(s, inner.now, inner.link);
      }
    case _ =>
  }

  lemma StepTouches(m: Manager, step: ManagerStep)
    requires ManagerEnabled(m, step) && !step.Create?
    ensures Touches(m, ManagerApply(m, step), step.i)
  {
    SessionEvolves(m.all[step.i], step.i in m.sessions, step);
  }

  /** Soundness is about the counter, the names and the queue only. */
  lemma SoundLooksAt(s: Session, u: Session)
    requires Sound(s) && u.names == s.names && u.serverSeq == s.serverSeq && u.base == s.base && u.queue == s.queue
    ensures Sound(u)
  {
  }

  lemma QuietStaysSound(s: Session, live: bool, step: ManagerStep)
    requires Sound(s) && SessionEnabled(s, step)
    requires step.Create? || step.Bind? || step.Close? || step.Remove? || step.Activate? || step.Request?
    ensures Sound(SessionAfter(s, live, step))
  {
    SoundLooksAt(s, SessionAfter(s, live, step));
  }

  lemma AckStaysSound(s: Session, live: bool, step: ManagerStep)
    requires Sound(s) && SessionEnabled(s, step) && (step.ClientAck? || step.ClientResync?)
    ensures Sound(SessionAfter(s, live, step))
  {
    var inner := if step.ClientAck? then Ack(step.a) else Resync(step.a);
    QueueStepStaysSound(s, inner);
    var t := if step.ClientAck? && !live then s else s.(queue := Apply(s.queue, inner));
    SoundLooksAt(t, SessionAfter(s, live, step));
  }

  lemma QueueWorkStaysSound(s: Session, live: bool, step: ManagerStep)
    requires Sound(s) && SessionEnabled(s, step) && (step.Timer? || step.Expire?)
    ensures Sound(SessionAfter(s, live, step))
  {
    var inner := if step.Timer? then step.step else Stop;
    QueueStepStaysSound(s, inner);
    var t := if step.Expire? && (!live || s.closed) then s else s.(queue := Apply(s.queue, inner));
    SoundLooksAt(t, SessionAfter(s, live, step));
  }

  lemma PushStaysSound(s: Session, live: bool, step: ManagerStep)
    requires Sound(s) && SessionEnabled(s, step) && step.Push?
    ensures Sound(SessionAfter(s, live, step))
  {
    PushStaysConsistent(s, step.n, step.now, step.link, step.burst);
  }

  lemma SessionStaysSound(s: Session, live: bool, step: ManagerStep)
    requires Sound(s) && SessionEnabled(s, step)
    ensures Sound(SessionAfter(s, live, step))
  {
    if step.Alloc? {
      AllocStaysSound(s, step.data);
    } else if step.Push? {
      PushStaysSound(s, live, step);
    } else if step.Timer? || step.Expire? {
      QueueWorkStaysSound(s, live, step);
    } else if step.ClientAck? || step.ClientResync? {
      AckStaysSound(s, live, step);
    } else {
      QuietStaysSound(s, live, step);
    }
  }

  /** Adding a registered session that nobody has taken over. */
  function Appended(m: Manager, s: Session, uids: map<string, nat>): Manager {
    Manager(m.all + [s], m.sessions + {|m.all|}, uids)
  }

  lemma AppendKeepsTakeOver(m: Manager, s: Session, uids: map<string, nat>, j: nat, p: nat)
    requires j < |m.all| && TookOver(m, j, p)
    ensures TookOver(Appended(m, s, uids), j, p)
  {
  }

  lemma AppendNewKeepsLinks(m: Manager, s: Session, uids: map<string, nat>)
    requires Links(m) && s.pred == None
    ensures Links(Appended(m, s, uids))
  {
    var t := Appended(m, s, uids);
    forall j: nat | j < |t.all| && t.all[j].pred.Some? ensures TookOver(t, j, t.all[j].pred.value) {
      AppendKeepsTakeOver(m, s, uids, j, m.all[j].pred.value);
    }
  }

  lemma AppendHeirKeepsLinks(m: Manager, p: nat, openID: string, seen: Seen, uids: map<string, nat>)
    requires AllSound(m) && Links(m) && p < |m.all| && m.all[p].closed && p !in m.sessions
    requires forall j: nat | j < |m.all| :: m.all[j].pred != Some(p)
    ensures Links(Appended(m, InheritedAs(m.all[p], p, openID, seen), uids))
  {
    var heir := InheritedAs(m.all[p], p, openID, seen);
    var t := Appended(m, heir, uids);
    forall j: nat | j < |t.all| && t.all[j].pred.Some? ensures TookOver(t, j, t.all[j].pred.value) {
      if j < |m.all| {
        AppendKeepsTakeOver(m, heir, uids, j, m.all[j].pred.value);
      } else {
        forall f | OnWire(m.all[p].queue, f) ensures f.serverSeq <= heir.base {
          WireIsNamed(m.all[p], f);
        }
      }
    }
  }

  /** Closing and unregistering the session that is taken over. */
  function Retired(m: Manager, p: nat): Manager
    requires p < |m.all|
  {
    Manager(m.all[p := m.all[p].(closed := true)], m.sessions - {p}, m.byUID)
  }

  lemma RetireKeeps(m: Manager, p: nat)
    requires AllSound(m) && Links(m) && p in m.sessions
    ensures AllSound(Retired(m, p)) && Links(Retired(m, p))
    ensures forall j: nat | j < |m.all| :: Retired(m, p).all[j].pred != Some(p)
  {
    TouchesKeepsLinks(m, Retired(m, p), p);
    forall j: nat | j < |m.all| ensures m.all[j].pred != Some(p) {
      assert m.all[j].pred == Some(p) ==> TookOver(m, j, p);
    }
  }

  lemma AppendStaysSound(m: Manager, s: Session, uids: map<string, nat>)
    requires AllSound(m) && Sound(s)
    ensures AllSound(Appended(m, s, uids))
  {
  }

  lemma CreateKeeps(m: Manager, openID: string, recent: bool, seen: Seen)
    requires AllSound(m) && Links(m)
    ensures AllSound(Created(m, openID, recent, seen)) && Links(Created(m, openID, recent, seen))
  {
    var uids := if openID != "" then m.byUID[openID := |m.all|] else m.byUID;
    match Predecessor(m, openID, recent)
    case None =>
      AppendNewKeepsLinks(m, NewSession(openID), uids);
      AppendStaysSound(m, NewSession(openID), uids);
    case Some(p) =>
      var r := Retired(m, p);
      var heir := InheritedAs(r.all[p], p, openID, seen);
      RetireKeeps(m, p);
      assert Created(m, openID, recent, seen) == Appended(r, heir, uids);
      assert Links(Appended(r, heir, uids)) by {
        AppendHeirKeepsLinks(r, p, openID, seen, uids);
      }
      assert AllSound(Appended(r, heir, uids)) by {
        InheritedIsSound(r.all[p], p, openID, seen);
        AppendStaysSound(r, heir, uids);
      }
  }

  lemma ManagerStepKeeps(m: Manager, step: ManagerStep)
    requires AllSound(m) && Links(m) && ManagerEnabled(m, step)
    ensures AllSound(ManagerApply(m, step)) && Links(ManagerApply(m, step))
  {
    if step.Create? {
      CreateKeeps(m, step.openID, step.recent, step.seen);
    } else {
      StepTouches(m, step);
      TouchesKeepsLinks(m, ManagerApply(m, step), step.i);
      SessionStaysSound(m.all[step.i], step.i in m.sessions, step);
    }
  }

  lemma {:induction false} ManagerRun(states: seq<Manager>, steps: seq<ManagerStep>, k: nat)
    requires IsManagerRun(states, steps) && k < |states|
    ensures AllSound(states[k]) && Links(states[k])
  {
    if k > 0 {
      ManagerRun(states, steps, k - 1);
      assert ManagerStepAt(states, steps, k - 1);
      ManagerStepKeeps(states[k - 1], steps[k - 1]);
    }
  }

  // ---------- One number, one payload ----------

  /** `p` is `i`, or a session that `i` took over, directly or through others. */
  ghost predicate Precedes(m: Manager, p: nat, i: nat)
    requires i < |m.all|
    decreases i
  {
    p == i || (m.all[i].pred.Some? && m.all[i].pred.value < i && Precedes(m, p, m.all[i].pred.value))
  }

  /** The first session of the chain of `i`. */
  ghost function Root(m: Manager, i: nat): nat
    requires i < |m.all|
    decreases i
  {
    if m.all[i].pred.Some? && m.all[i].pred.value < i then Root(m, m.all[i].pred.value) else i
  }

  /** What a session has put on the wire, every later session of its chain knows under the same number and payload. */
  lemma {:induction false} HeirsKnow(m: Manager, p: nat, i: nat, f: Frame)
    requires AllSound(m) && Links(m) && p < |m.all| && i < |m.all| && Precedes(m, p, i) && OnWire(m.all[p].queue, f)
    ensures Named(m.all[i].names, f.serverSeq, f.data)
    ensures p != i ==> f.serverSeq <= m.all[i].base
    decreases i
  {
    WireIsNamed(m.all[p], f);
    if p != i {
      var q := m.all[i].pred.value;
      HeirsKnow(m, p, q, f);
      assert TookOver(m, i, q) && Sound(m.all[q]);
      assert m.all[i].names[..m.all[i].base] == m.all[q].names[..m.all[i].base];
    }
  }

  lemma {:induction false} RootPrecedes(m: Manager, i: nat)
    requires Links(m) && i < |m.all|
    ensures Root(m, i) <= i && Precedes(m, Root(m, i), i)
    decreases i
  {
    if m.all[i].pred.Some? && m.all[i].pred.value < i {
      RootPrecedes(m, m.all[i].pred.value);
    }
  }

  /** If `p` strictly precedes `i`, some session on the way took over from `p`. */
  lemma {:induction false} HeirOnTheWay(m: Manager, p: nat, i: nat) returns (c: nat)
    requires Links(m) && i < |m.all| && Precedes(m, p, i) && p != i
    ensures p < c <= i && m.all[c].pred == Some(p)
    decreases i
  {
    var q := m.all[i].pred.value;
    assert TookOver(m, i, q);
    if q == p {
      c := i;
    } else {
      c := HeirOnTheWay(m, p, q);
    }
  }

  /**
   Each session is taken over at most once, so a chain does not branch: of two of its
   sessions one precedes the other.
   */
  lemma {:induction false} ChainIsLinear(m: Manager, p: nat, i: nat)
    requires Links(m) && p <= i < |m.all| && Root(m, p) == Root(m, i)
    ensures Precedes(m, p, i)
    decreases p + i
  {
    if p < i {
      RootPrecedes(m, p);
      var q := m.all[i].pred.value;
      assert m.all[i].pred.Some? && TookOver(m, i, q);
      if p <= q {
        ChainIsLinear(m, p, q);
      } else {
        ChainIsLinear(m, q, p);
        var c := HeirOnTheWay(m, q, p);
      }
    }
  }

  /**
   Along any chain of reconnects a number never names two payloads on the wire: whatever
   any two of its sessions have put on the wire under one number, for the first time or
   again, is the same frame.
   */
  lemma OneNumberOnePayload(states: seq<Manager>, steps: seq<ManagerStep>, k: nat, p: nat, i: nat, f: Frame, g: Frame)
    requires IsManagerRun(states, steps) && k < |states|
    requires p < |states[k].all| && i < |states[k].all| && Root(states[k], p) == Root(states[k], i)
    requires OnWire(states[k].all[p].queue, f) && OnWire(states[k].all[i].queue, g) && f.serverSeq == g.serverSeq
    ensures f == g
  {
    ManagerRun(states, steps, k);
    var m := states[k];
    if p <= i {
      ChainIsLinear(m, p, i);
      HeirsKnow(m, p, i, f);
      WireIsNamed(m.all[i], g);
    } else {
      ChainIsLinear(m, i, p);
      HeirsKnow(m, i, p, g);
      WireIsNamed(m.all[p], f);
    }
  }

  // ---------- Admission ----------

  /** Zeros come first; from the first nonzero number on, each is the one before plus one. */
  ghost predicate CountsUp(log: seq<nat>) {
    forall j | 0 <= j < |log| - 1 && log[j] > 0 :: log[j + 1] == log[j] + 1
  }

  ghost predicate Admission(s: Session) {
    CountsUp(s.admitted) && s.maxClientSeq == if s.admitted == [] then 0 else s.admitted[|s.admitted| - 1]
  }

  ghost predicate AllAdmit(m: Manager) {
    forall i: nat | i < |m.all| :: Admission(m.all[i])
  }

  lemma SessionKeepsAdmission(s: Session, live: bool, step: ManagerStep)
    requires Admission(s) && SessionEnabled(s, step)
    ensures Admission(SessionAfter(s, live, step))
  {
  }

  lemma CreateKeepsAdmission(m: Manager, openID: string, recent: bool, seen: Seen)
    requires AllAdmit(m)
    ensures AllAdmit(Created(m, openID, recent, seen))
  {
    var t, p := Created(m, openID, recent, seen), Predecessor(m, openID, recent);
    assert p.Some? ==> Admission(m.all[p.value]);
    forall j: nat | j < |t.all| ensures Admission(t.all[j]) {
      assert j < |m.all| ==> Admission(m.all[j]);
    }
  }

  lemma AdmissionStep(m: Manager, step: ManagerStep)
    requires AllAdmit(m) && ManagerEnabled(m, step)
    ensures AllAdmit(ManagerApply(m, step))
  {
    if step.Create? {
      CreateKeepsAdmission(m, step.openID, step.recent, step.seen);
    } else {
      assert Admission(m.all[step.i]);
      SessionKeepsAdmission(m.all[step.i], step.i in m.sessions, step);
      forall j: nat | j < |m.all| ensures Admission(ManagerApply(m, step).all[j]) {
        assert Admission(m.all[j]);
      }
    }
  }

  lemma {:induction false} AdmissionRun(states: seq<Manager>, steps: seq<ManagerStep>, k: nat)
    requires IsManagerRun(states, steps) && k < |states|
    ensures AllAdmit(states[k])
  {
    if k > 0 {
      AdmissionRun(states, steps, k - 1);
      assert ManagerStepAt(states, steps, k - 1);
      AdmissionStep(states[k - 1], steps[k - 1]);
    }
  }

  lemma {:induction false} CountsUpBy(log: seq<nat>, a: nat, b: nat)
    requires CountsUp(log) && a <= b < |log| && log[a] > 0
    ensures log[b] == log[a] + (b - a)
    decreases b
  {
    if a < b {
      CountsUpBy(log, a, b - 1);
    }
  }

  lemma {:induction false} LogsExtend(m: Manager, p: nat, i: nat)
    requires Links(m) && p < |m.all| && i < |m.all| && Precedes(m, p, i)
    ensures m.all[p].admitted <= m.all[i].admitted
    decreases i
  {
    if p != i {
      var q := m.all[i].pred.value;
      assert TookOver(m, i, q);
      LogsExtend(m, p, q);
    }
  }

  /**
   Along a chain of reconnects requests are admitted at most once: the log of a later
   session extends that of an earlier one, once a nonzero number has been admitted the
   numbers go up by one, and so no nonzero number occurs in it twice.
   */
  lemma AdmittedOnce(states: seq<Manager>, steps: seq<ManagerStep>, k: nat, p: nat, i: nat)
    requires IsManagerRun(states, steps) && k < |states|
    requires p <= i < |states[k].all| && Root(states[k], p) == Root(states[k], i)
    ensures var earlier, log := states[k].all[p].admitted, states[k].all[i].admitted;
            && earlier <= log
            && (forall a, b | 0 <= a <= b < |log| && log[a] > 0 :: log[b] == log[a] + (b - a))
            && (forall a, b | 0 <= a < b < |log| && log[a] > 0 :: log[a] != log[b])
  {
    ManagerRun(states, steps, k);
    AdmissionRun(states, steps, k);
    var m := states[k];
    ChainIsLinear(m, p, i);
    LogsExtend(m, p, i);
    assert Admission(m.all[i]);
    var log := m.all[i].admitted;
    forall a, b | 0 <= a <= b < |log| && log[a] > 0 ensures log[b] == log[a] + (b - a) {
      CountsUpBy(log, a, b);
    }
  }
}
