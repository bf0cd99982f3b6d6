/**
 The session manager's objects, read as a state of `Reconnect`: what the manager does to its
 indexes are steps there.
 */
module ManagerSteps {
  import opened Common
  import opened SessionSpec
  import opened Reconnect
  import S = Sessions

  /** `s` is the session that `m` numbers as `s` does. */
  ghost predicate Stands(s: S.Session, m: Manager)
    reads s, s.orderedQueue, s.orderedQueue.waitingQueue
  {
    s.number < |m.all| && m.all[s.number] == s.State()
  }

  type Index = map<string, S.Session>

  function Known(sessions: Index, uids: Index): set<S.Session> {
    sessions.Values + uids.Values
  }

  ghost predicate Numbered(sessions: Index, id: string, n: nat) {
    id in sessions && sessions[id].number == n
  }

  /** Sessions differ in name and in number. */
  ghost predicate Distinct(known: set<S.Session>) {
    forall s, t | s in known && t in known && (s.number == t.number || s.id == t.id) :: s == t
  }

  /** The two indexes are those of `m`; every session is under its own name, and known by name and number. */
  ghost predicate Indexed(sessions: Index, uids: Index, m: Manager) {
    && Distinct(Known(sessions, uids))
    && (forall id | id in sessions :: sessions[id].id == id && sessions[id].number in m.sessions)
    && (forall n | n in m.sessions :: exists id :: Numbered(sessions, id, n))
    && uids.Keys == m.byUID.Keys && (forall u | u in uids :: m.byUID[u] == uids[u].number)
  }

  ghost predicate AllStand(known: set<S.Session>, m: Manager)
    reads *
  {
    forall s | s in known :: Stands(s, m)
  }

  /** The manager's two indexes are those of `m`, and its sessions stand for those of `m`. */
  ghost predicate Represents(g: S.SessionManager, m: Manager)
    reads *
  {
    Indexed(g.sessions, g.sessionsByUID, m) && AllStand(Known(g.sessions, g.sessionsByUID), m)
  }

  /** Whether a connection takes over a session, and which, the objects and the model agree on. */
  lemma TakesOverAgrees(g: S.SessionManager, m: Manager, openID: string, now: int)
    requires Represents(g, m)
    ensures openID in g.sessionsByUID <==> openID in m.byUID
    ensures var recent := openID in g.sessionsByUID && now - g.sessionsByUID[openID].lastActivity < 60 * SECOND;
            && (g.TakesOver(openID, now) <==> Predecessor(m, openID, recent).Some?)
            && (g.TakesOver(openID, now) ==>
                  Predecessor(m, openID, recent) == Some(g.sessionsByUID[openID].number))
  {
    if openID in g.sessionsByUID {
      var s := g.sessionsByUID[openID];
      assert s in Known(g.sessions, g.sessionsByUID) && Stands(s, m);
      if s.number in m.sessions {
        var id :| Numbered(g.sessions, id, s.number);
        assert g.sessions[id] in Known(g.sessions, g.sessionsByUID);
      }
    }
  }

  /** And whether a user is held by a session of another name. */
  lemma OccupiedAgrees(g: S.SessionManager, m: Manager, openID: string, s: S.Session)
    requires Represents(g, m) && s in Known(g.sessions, g.sessionsByUID)
    ensures g.Occupied(openID, s.id) <==> openID != "" && openID in m.byUID && m.byUID[openID] != s.number
  {
    if openID in g.sessionsByUID {
      assert g.sessionsByUID[openID] in Known(g.sessions, g.sessionsByUID);
    }
  }

  /**
   A START is fine exactly if it carries no number, parses, names a user, and no session of
   another name is indexed under that user; and the first check that fails says why not.
   */
  lemma FineIff(g: S.SessionManager, s: S.Session, reqSeq: nat, req: Option<S.StartRequest>)
    ensures var v := S.Judge(g, s, reqSeq, req);
            && (v == S.BadNumber <==> reqSeq != 0)
            && (v == S.BadPayload <==> reqSeq == 0 && req.None?)
            && (v == S.NoUser <==> reqSeq == 0 && req.Some? && req.value.openID == "")
            && (v == S.Fine || v == S.UserTaken <==> reqSeq == 0 && req.Some? && req.value.openID != "")
            && (v == S.Fine ==>
                  req.value.openID in g.sessionsByUID ==> g.sessionsByUID[req.value.openID].id == s.id)
            && (v == S.UserTaken ==>
                  req.value.openID in g.sessionsByUID && g.sessionsByUID[req.value.openID].id != s.id)
  {
  }

  /** A START that is refused acknowledges nothing; its session takes the user's name only if that was found taken. */
  lemma RefusedStart(s: Session, live: bool, v: S.Verdict, req: Option<S.StartRequest>)
    requires req.Some? || v == S.BadNumber || v == S.BadPayload
    ensures v == S.Fine ==>
              S.Started(s, live, v, req) == AfterStart(s.(openID := req.value.openID), live, req.value.lastAcked)
    ensures v != S.Fine ==>
              S.Started(s, live, v, req) == s.(openID := if v == S.UserTaken then req.value.openID else s.openID)
  {
  }

  /** `s` is new: nobody known has its name or number. */
  ghost predicate IsNew(s: S.Session, known: set<S.Session>) {
    forall t | t in known :: t.id != s.id && t.number != s.number
  }

  lemma WithNewUser(sessions: Index, uids: Index, m: Manager, s: S.Session, openID: string)
    requires Indexed(sessions, uids, m) && s in Known(sessions, uids)
    ensures Indexed(sessions, uids[openID := s], m.(byUID := m.byUID[openID := s.number]))
  {
    assert Known(sessions, uids[openID := s]) <= Known(sessions, uids);
  }

  lemma IndexedLooksAt(sessions: Index, uids: Index, m: Manager, t: Manager)
    requires Indexed(sessions, uids, m) && t.sessions == m.sessions && t.byUID == m.byUID
    ensures Indexed(sessions, uids, t)
  {
  }

  lemma DistinctWithNew(known: set<S.Session>, s: S.Session)
    requires Distinct(known) && IsNew(s, known)
    ensures Distinct(known + {s})
  {
  }

  lemma KnownWithNew(sessions: Index, uids: Index, s: S.Session)
    requires s.id !in sessions
    ensures Known(sessions[s.id := s], uids) == Known(sessions, uids) + {s}
  {
    var more := sessions[s.id := s];
    assert more[s.id] == s;
    assert forall id | id in sessions :: more[id] == sessions[id];
  }

  /** A new session beside the others. */
  lemma WithNewSession(sessions: Index, uids: Index, m: Manager, s: S.Session)
    requires Indexed(sessions, uids, m) && IsNew(s, Known(sessions, uids)) && s.id !in sessions
    ensures Indexed(sessions[s.id := s], uids, m.(sessions := m.sessions + {s.number}))
  {
    var more := sessions[s.id := s];
    KnownWithNew(sessions, uids, s);
    DistinctWithNew(Known(sessions, uids), s);
    forall n | n in m.sessions + {s.number} ensures exists id :: Numbered(more, id, n) {
      if n == s.number {
        assert Numbered(more, s.id, n);
      } else {
        var id :| Numbered(sessions, id, n);
        assert Numbered(more, id, n);
      }
    }
  }

  /** One session less in the index by name. */
  lemma WithoutSession(sessions: Index, uids: Index, m: Manager, s: S.Session)
    requires Indexed(sessions, uids, m) && s.id in sessions && sessions[s.id] == s
    ensures Indexed(sessions - {s.id}, uids, m.(sessions := m.sessions - {s.number}))
  {
    var fewer := sessions - {s.id};
    assert Known(fewer, uids) <= Known(sessions, uids);
    assert s in Known(sessions, uids);
    forall id | id in fewer ensures fewer[id].number in m.sessions - {s.number} {
      assert sessions[id] in Known(sessions, uids);
    }
    forall n | n in m.sessions - {s.number} ensures exists id :: Numbered(fewer, id, n) {
      var id :| Numbered(sessions, id, n);
      assert Numbered(fewer, id, n);
    }
  }

  /** The step that a creation makes. */
  ghost function CreateStep(g: S.SessionManager, m: Manager, openID: string, now: int): ManagerStep
    reads *
    requires Represents(g, m)
  {
    var recent := openID in g.sessionsByUID && now - g.sessionsByUID[openID].lastActivity < 60 * SECOND;
    var p := Predecessor(m, openID, recent);
    Create(openID, recent, if p.Some? then SeenOf(m.all[p.value]) else Seen(0, Inited, 0))
  }

  /** What the step makes of the two indexes. */
  lemma CreatedIndexes(m: Manager, openID: string, recent: bool, seen: Seen)
    ensures var t, n := Created(m, openID, recent, seen), |m.all|;
            && t.byUID == (if openID != "" then m.byUID[openID := n] else m.byUID)
            && t.sessions == match Predecessor(m, openID, recent)
                             case None => m.sessions + {n}
                             case Some(p) => m.sessions - {p} + {n}
  {
  }

  lemma NewIndexes(sessions: Index, uids: Index, m: Manager, s: S.Session, openID: string, t: Manager)
    requires Indexed(sessions, uids, m) && IsNew(s, Known(sessions, uids)) && s.id !in sessions
    requires t.sessions == m.sessions + {s.number}
    requires t.byUID == if openID != "" then m.byUID[openID := s.number] else m.byUID
    ensures Indexed(sessions[s.id := s], if openID != "" then uids[openID := s] else uids, t)
  {
    var more, m' := sessions[s.id := s], m.(sessions := m.sessions + {s.number});
    WithNewSession(sessions, uids, m, s);
    if openID != "" {
      assert more[s.id] == s;
      WithNewUser(more, uids, m', s, openID);
      IndexedLooksAt(more, uids[openID := s], m'.(byUID := m'.byUID[openID := s.number]), t);
    } else {
      IndexedLooksAt(more, uids, m', t);
    }
  }

  lemma HeirIndexes(
      sessions: Index, uids: Index, m: Manager, s: S.Session, former: S.Session, openID: string, t: Manager)
    requires Indexed(sessions, uids, m) && IsNew(s, Known(sessions, uids)) && s.id !in sessions
    requires former.id in sessions && sessions[former.id] == former && openID != ""
    requires t.sessions == m.sessions - {former.number} + {s.number} && t.byUID == m.byUID[openID := s.number]
    ensures Indexed((sessions - {former.id})[s.id := s], uids[openID := s], t)
  {
    WithoutSession(sessions, uids, m, former);
    assert Known(sessions - {former.id}, uids) <= Known(sessions, uids);
    NewIndexes(sessions - {former.id}, uids, m.(sessions := m.sessions - {former.number}), s, openID, t);
  }

  /** A creation leaves every other session as it is. */
  method Make(
      g: S.SessionManager, ghost m: Manager, ghost known: set<S.Session>, sessionID: string, openID: string, now: int)
    returns (s: S.Session, isReconnect: bool)
    requires known == Known(g.sessions, g.sessionsByUID) && AllStand(known, m)
    requires forall t | t in known :: t.Valid()
    modifies g, if openID in g.sessionsByUID then {g.sessionsByUID[openID]} else {}
    ensures s.number == |m.all| && s.id == sessionID
    ensures isReconnect <==> old(g.TakesOver(openID, now))
    ensures forall a | a in known && !(openID in old(g.sessionsByUID) && a == old(g.sessionsByUID)[openID]) ::
              Stands(a, m)
    ensures !isReconnect ==> s.State() == NewSession(openID) && g.sessions == old(g.sessions)[sessionID := s]
    ensures !isReconnect && openID in old(g.sessionsByUID) ==> Stands(old(g.sessionsByUID)[openID], m)
    ensures isReconnect ==>
              var former := old(g.sessionsByUID)[openID];
              && former.number < |m.all|
              && s.State() == Inherited(m.all[former.number], former.number, openID)
              && former.State() == m.all[former.number].(closed := true)
              && g.sessions == (old(g.sessions) - {former.id})[sessionID := s]
    ensures g.sessionsByUID == if openID != "" then old(g.sessionsByUID)[openID := s] else old(g.sessionsByUID)
  {
    assert openID in g.sessionsByUID ==> g.sessionsByUID[openID] in known && Stands(g.sessionsByUID[openID], m);
    s, isReconnect := g.CreateOrReconnectSession(sessionID, openID, now, |m.all|);
    forall a | a in known && !(openID in old(g.sessionsByUID) && a == old(g.sessionsByUID)[openID])
      ensures Stands(a, m)
    {
      assert old(Stands(a, m));
      assert unchanged(a) && unchanged(a.orderedQueue) && unchanged(a.orderedQueue.waitingQueue);
    }
  }

  /** What a creation makes of the sessions. */
  lemma CreatedSessions(m: Manager, openID: string, recent: bool, seen: Seen)
    requires Predecessor(m, openID, recent).Some? ==>
               seen == SeenOf(m.all[Predecessor(m, openID, recent).value])
    ensures var t, n, p := Created(m, openID, recent, seen), |m.all|, Predecessor(m, openID, recent);
            && |t.all| == n + 1
            && (forall j: nat | j < n && p != Some(j) :: t.all[j] == m.all[j])
            && (p.Some? ==> t.all[p.value] == m.all[p.value].(closed := true))
            && t.all[n] == if p.Some? then Inherited(m.all[p.value], p.value, openID) else NewSession(openID)
  {
  }

  lemma NewName(sessions: Index, uids: Index, m: Manager, s: S.Session)
    requires Indexed(sessions, uids, m) && s.number == |m.all|
    requires forall a | a in Known(sessions, uids) :: a.id != s.id && a.number < |m.all|
    ensures IsNew(s, Known(sessions, uids)) && s.id !in sessions
  {
    assert forall id | id in sessions :: sessions[id] in Known(sessions, uids);
  }

  /** Those who stood still do, and the new one does too. */
  lemma StandNow(known: set<S.Session>, m: Manager, t: Manager, s: S.Session, other: Option<S.Session>)
    requires forall a | a in known && other != Some(a) :: Stands(a, m)
    requires other.Some? ==> other.value in known && Stands(other.value, t)
    requires forall a, b | a in known && b in known && a.number == b.number :: a == b
    requires |m.all| <= |t.all| && Stands(s, t)
    requires forall j: nat | j < |m.all| && (other.Some? ==> j != other.value.number) :: t.all[j] == m.all[j]
    ensures AllStand(known + {s}, t)
  {
  }

  /** The objects after a creation, and the step. */
  lemma CreationRepresented(
      g: S.SessionManager, m: Manager, step: ManagerStep, s: S.Session, former: Option<S.Session>,
      sessions: Index, uids: Index, openID: string)
    requires step.Create? && step.openID == openID && Indexed(sessions, uids, m)
    requires forall a | a in Known(sessions, uids) :: a.id != s.id && a.number < |m.all|
    requires s.number == |m.all|
    requires Predecessor(m, openID, step.recent) == if former.Some? then Some(former.value.number) else None
    requires former.Some? ==> former.value in Known(sessions, uids)
    requires former.Some? ==> former.value.id in sessions && sessions[former.value.id] == former.value && openID != ""
    requires former.Some? ==> step.seen == SeenOf(m.all[former.value.number])
    requires forall a | a in Known(sessions, uids) && former != Some(a) :: Stands(a, m)
    requires former.Some? ==> former.value.State() == m.all[former.value.number].(closed := true)
    requires s.State() == if former.Some? then Inherited(m.all[former.value.number], former.value.number, openID)
                          else NewSession(openID)
    requires g.sessions == (if former.Some? then sessions - {former.value.id} else sessions)[s.id := s]
    requires g.sessionsByUID == if openID != "" then uids[openID := s] else uids
    ensures Represents(g, Created(m, openID, step.recent, step.seen))
  {
    var t := Created(m, openID, step.recent, step.seen);
    CreatedSessions(m, openID, step.recent, step.seen);
    CreatedIndexes(m, openID, step.recent, step.seen);
    NewName(sessions, uids, m, s);
    StandNow(Known(sessions, uids), m, t, s, former);
    if former.Some? {
      HeirIndexes(sessions, uids, m, s, former.value, openID, t);
    } else {
      NewIndexes(sessions, uids, m, s, openID, t);
    }
    assert Known(g.sessions, g.sessionsByUID) <= Known(sessions, uids) + {s};
  }

  /** Creating or reconnecting a session is a `Create` step, which reads the predecessor as it closes it. */
  method CreateOrReconnect(g: S.SessionManager, ghost m: Manager, sessionID: string, openID: string, now: int)
    returns (s: S.Session, isReconnect: bool)
    requires Represents(g, m)
    requires forall t | t in Known(g.sessions, g.sessionsByUID) :: t.id != sessionID && t.Valid()
    modifies g, if openID in g.sessionsByUID then {g.sessionsByUID[openID]} else {}
    ensures var step := old(CreateStep(g, m, openID, now));
            ManagerEnabled(m, step) && Represents(g, ManagerApply(m, step))
  {
    ghost var sessions, uids, step := g.sessions, g.sessionsByUID, CreateStep(g, m, openID, now);
    ghost var known := Known(sessions, uids);
    TakesOverAgrees(g, m, openID, now);
    assert openID in uids ==> uids[openID] in known;
    assert forall a | a in known :: Stands(a, m);
    s, isReconnect := Make(g, m, known, sessionID, openID, now);
    CreationRepresented(g, m, step, s, if isReconnect then Some(uids[openID]) else None, sessions, uids, openID);
  }

  /** What a binding makes of the sessions and of the two indexes. */
  lemma BoundManager(m: Manager, i: nat, openID: string)
    requires i < |m.all| && openID != ""
    ensures var t := ManagerApply(m, Bind(i, openID));
            && t.all == m.all[i := m.all[i].(openID := openID)] && t.sessions == m.sessions
            && t.byUID == if openID in m.byUID && m.byUID[openID] != i then m.byUID else m.byUID[openID := i]
  {
  }

  /** The objects after a binding, and the step. */
  lemma BindingRepresented(
      g: S.SessionManager, m: Manager, sess: S.Session, openID: string, ok: bool, uids: Index)
    requires Indexed(g.sessions, uids, m) && sess in Known(g.sessions, uids) && sess.number < |m.all| && openID != ""
    requires forall a | a in Known(g.sessions, uids) && a != sess :: Stands(a, m)
    requires sess.State() == m.all[sess.number].(openID := openID)
    requires ok <==> openID !in m.byUID || m.byUID[openID] == sess.number
    requires g.sessionsByUID == if ok then uids[openID := sess] else uids
    ensures Represents(g, ManagerApply(m, Bind(sess.number, openID)))
  {
    var t := ManagerApply(m, Bind(sess.number, openID));
    BoundManager(m, sess.number, openID);
    StandRenamed(Known(g.sessions, uids), m, t, sess, openID);
    if ok {
      WithNewUser(g.sessions, uids, m, sess, openID);
      IndexedLooksAt(g.sessions, uids[openID := sess], m.(byUID := m.byUID[openID := sess.number]), t);
    } else {
      IndexedLooksAt(g.sessions, uids, m, t);
    }
    assert Known(g.sessions, g.sessionsByUID) <= Known(g.sessions, uids);
  }

  /** Naming the user of a session, and binding the session to it, is a `Bind` step. */
  method NameAndBind(g: S.SessionManager, ghost m: Manager, sess: S.Session, openID: string) returns (ok: bool)
    requires Represents(g, m) && sess in Known(g.sessions, g.sessionsByUID) && openID != ""
    modifies sess`openID, g`sessionsByUID
    ensures ManagerEnabled(m, Bind(sess.number, openID))
    ensures Represents(g, ManagerApply(m, Bind(sess.number, openID)))
    ensures ok <==> openID !in m.byUID || m.byUID[openID] == sess.number
  {
    ghost var uids := g.sessionsByUID;
    OccupiedAgrees(g, m, openID, sess);
    Rename(m, Known(g.sessions, g.sessionsByUID), sess, openID);
    ok := g.BindSession(sess);
    BindingRepresented(g, m, sess, openID, ok, uids);
  }

  method Rename(ghost m: Manager, ghost known: set<S.Session>, sess: S.Session, openID: string)
    requires sess in known && AllStand(known, m)
    modifies sess`openID
    ensures sess.openID == openID && sess.number < |m.all| && sess.State() == m.all[sess.number].(openID := openID)
    ensures forall a | a in known && a != sess :: Stands(a, m)
  {
    assert Stands(sess, m);
    sess.openID := openID;
    forall a | a in known && a != sess ensures Stands(a, m) {
      assert old(Stands(a, m));
      assert unchanged(a) && unchanged(a.orderedQueue) && unchanged(a.orderedQueue.waitingQueue);
    }
  }

  lemma StandRenamed(known: set<S.Session>, m: Manager, t: Manager, sess: S.Session, openID: string)
    requires sess in known && sess.number < |m.all|
    requires forall a, b | a in known && b in known && a.number == b.number :: a == b
    requires forall a | a in known && a != sess :: Stands(a, m)
    requires sess.State() == m.all[sess.number].(openID := openID)
    requires t.all == m.all[sess.number := m.all[sess.number].(openID := openID)]
    ensures AllStand(known, t)
  {
  }
}
