/**
 The session pool of cli/managed/manager.py. Every operation holds the manager's lock to its end,
 so an operation is one step; how `session.stop()` ends is a parameter.
 */
module SessionIndex {
  import opened Options

  /** One managed subprocess; only its identity matters here. */
  class ManagedClaudeSession {
    constructor () {}
  }

  type Session = ManagedClaudeSession

  /** `live` is not in the program: the sessions created and not yet forgotten. */
  datatype Index = Index(sessions: map<string, Session>, pending: map<string, Session>,
                         tempToReal: map<string, string>, realToTemp: map<string, string>,
                         closing: set<Session>, live: set<Session>)

  // --- The invariant ---

  predicate Inverse(tempToReal: map<string, string>, realToTemp: map<string, string>) {
    && (forall t :: t in tempToReal ==> tempToReal[t] in realToTemp && realToTemp[tempToReal[t]] == t)
    && (forall r :: r in realToTemp ==> realToTemp[r] in tempToReal && tempToReal[realToTemp[r]] == r)
  }

  ghost predicate Inv(x: Index) {
    && Inverse(x.tempToReal, x.realToTemp)
    && x.realToTemp.Keys == x.sessions.Keys
    && x.pending.Keys !! x.sessions.Keys && x.pending.Keys !! x.tempToReal.Keys
    && (forall t :: t in x.tempToReal && t in x.sessions ==> x.tempToReal[t] == t)
    && OwnedOnce(x)
    && x.closing <= x.live
  }

  /** Every live session is owned, under exactly one key. */
  ghost predicate OwnedOnce(x: Index) {
    && x.live == x.sessions.Values + x.pending.Values
    && x.sessions.Values !! x.pending.Values
    && (forall a, b :: a in x.sessions && b in x.sessions && x.sessions[a] == x.sessions[b] ==> a == b)
    && (forall a, b :: a in x.pending && b in x.pending && x.pending[a] == x.pending[b] ==> a == b)
  }

  // --- Lookup ---

  function Resolve(x: Index, id: string): string { if id in x.tempToReal then x.tempToReal[id] else id }

  function Lookup(x: Index, id: string): Option<Session> {
    var key := Resolve(x, id);
    if key in x.sessions then Some(x.sessions[key])
    else if key in x.pending then Some(x.pending[key])
    else None
  }

  /** The id belongs to the session: as its pending id, its real id, or the temporary id it registered from. */
  predicate Names(x: Index, id: string, s: Session) {
    || (id in x.pending && x.pending[id] == s)
    || (id in x.sessions && x.sessions[id] == s)
    || (id in x.tempToReal && x.tempToReal[id] in x.sessions && x.sessions[x.tempToReal[id]] == s)
  }

  /** An id belongs to at most one session, and the lookup finds that one. */
  lemma LookupIsUnambiguous(x: Index, id: string, s: Session)
    requires Inv(x)
    ensures Lookup(x, id) == Some(s) <==> Names(x, id, s)
  {
    if id in x.tempToReal { assert x.tempToReal[id] in x.realToTemp.Keys; }
  }

  // --- Operations ---

  datatype Got = Closing | Existing(session: Session, key: string) | Created(key: string)

  /** An empty id counts as none; `generated` is the random pending id used then. */
  function KeyFor(sessionId: Option<string>, generated: string): string {
    if sessionId.Some? && sessionId.value != "" then sessionId.value else generated
  }

  function Find(x: Index, sessionId: Option<string>): Option<Session> {
    if sessionId.Some? && sessionId.value != "" then Lookup(x, sessionId.value) else None
  }

  function Get(x: Index, sessionId: Option<string>, generated: string): Got {
    match Find(x, sessionId)
    case Some(s) => if s in x.closing then Closing else Existing(s, Resolve(x, sessionId.value))
    case None => Created(KeyFor(sessionId, generated))
  }

  /**
   What a caller gets for its id: the live session the id names, unless that is closing; a new session under the id
   itself if it names none. A closing session is never handed out.
   */
  lemma LookupOutcome(x: Index, id: string, generated: string, s: Session)
    requires Inv(x) && id != ""
    ensures var got := Get(x, Some(id), generated);
            && (got.Existing? && got.session == s ==> Names(x, id, s) && s !in x.closing && s in x.live
                                                      && Names(x, got.key, s))
            && (Names(x, id, s) ==> if s in x.closing then got == Closing else got.Existing? && got.session == s)
            && ((forall t :: !Names(x, id, t)) <==> got.Created?)
            && (got.Created? ==> got.key == id)
    ensures Get(x, None, generated) == Created(generated) == Get(x, Some(""), generated)
  {
    LookupIsUnambiguous(x, id, s);
    if Lookup(x, id).Some? {
      var t := Lookup(x, id).value;
      LookupIsUnambiguous(x, id, t);
      OwnersAreLive(x, id, t);
      LookupIsUnambiguous(x, Resolve(x, id), s);
    }
    if id in x.tempToReal { assert x.tempToReal[id] in x.realToTemp.Keys; }
    forall t | Names(x, id, t) ensures Lookup(x, id) == Some(t) { LookupIsUnambiguous(x, id, t); }
  }

  function Create(x: Index, key: string, s: Session): Index {
    x.(pending := x.pending[key := s], live := x.live + {s})
  }

  predicate Unused(x: Index, key: string) {
    key !in x.pending && key !in x.sessions && key !in x.tempToReal
  }

  /** A new session leaves the index consistent if and only if its key is unused. */
  lemma CreateNeedsAnUnusedKey(x: Index, key: string, s: Session)
    requires Inv(x) && s !in x.live
    ensures Inv(Create(x, key, s)) <==> Unused(x, key)
  {
    var y := Create(x, key, s);
    assert s in y.pending.Values by { assert key in y.pending && y.pending[key] == s; }
    if Unused(x, key) {
      assert y.pending.Values == x.pending.Values + {s} by { KeptValues(x.pending, key, s); }
    } else if key in x.pending {
      var lost := x.pending[key];
      assert lost in x.pending.Values && lost in y.live;
      forall k | k in y.pending ensures y.pending[k] != lost {}
      assert lost !in y.pending.Values && lost !in y.sessions.Values;
    }
  }

  lemma KeptValues(m: map<string, Session>, key: string, s: Session)
    requires key !in m
    ensures m[key := s].Values == m.Values + {s}
  {
    forall v | v in m.Values ensures v in m[key := s].Values {
      var k :| k in m && m[k] == v;
      assert k in m[key := s] && m[key := s][k] == v;
    }
    assert key in m[key := s];
  }

  ghost predicate Found(x: Index, s: Session) { exists id :: Lookup(x, id) == Some(s) }

  /** Otherwise a live session is lost: each live session is found under some id if and only if the key is unused. */
  lemma CollisionLosesASession(x: Index, key: string, s: Session)
    requires Inv(x) && s !in x.live
    ensures (forall t :: t in Create(x, key, s).live ==> Found(Create(x, key, s), t)) <==> Unused(x, key)
  {
    var y := Create(x, key, s);
    if Unused(x, key) {
      CreateNeedsAnUnusedKey(x, key, s);
      forall t | t in y.live ensures Found(y, t) { OwnedIsFound(y, t); }
    } else if key in x.pending {
      Replaced(x, key, s);
    } else {
      Hidden(x, key, s);
    }
  }

  lemma OwnedIsFound(x: Index, s: Session)
    requires Inv(x) && s in x.live
    ensures Found(x, s)
  {
    var id :| (id in x.sessions && x.sessions[id] == s) || (id in x.pending && x.pending[id] == s);
    LookupIsUnambiguous(x, id, s);
  }

  /** The pending session whose key is taken over. */
  lemma Replaced(x: Index, key: string, s: Session)
    requires Inv(x) && s !in x.live && key in x.pending
    ensures x.pending[key] in Create(x, key, s).live && !Found(Create(x, key, s), x.pending[key])
  {
    var lost := x.pending[key];
    assert lost in x.pending.Values;
    forall id ensures Lookup(Create(x, key, s), id) != Some(lost) {
      assert forall k :: k in x.sessions ==> x.sessions[k] in x.sessions.Values;
    }
  }

  lemma HiddenFrom(x: Index, key: string, s: Session, id: string)
    requires Inv(x) && s !in x.live && (key in x.sessions || key in x.tempToReal)
    ensures Lookup(Create(x, key, s), id) != Some(s)
  {
    var found := Resolve(x, id);
    if found in x.sessions {
      assert x.sessions[found] in x.sessions.Values;
    } else if found in x.pending {
      assert x.pending[found] in x.pending.Values;
    }
    if id in x.tempToReal { assert found in x.realToTemp.Keys; }
    if key in x.tempToReal { assert x.tempToReal[key] in x.realToTemp.Keys; }
  }

  /** The new session, if the key already leads to a registered one. */
  lemma Hidden(x: Index, key: string, s: Session)
    requires Inv(x) && s !in x.live && (key in x.sessions || key in x.tempToReal)
    ensures !Found(Create(x, key, s), s)
  {
    forall id ensures Lookup(Create(x, key, s), id) != Some(s) { HiddenFrom(x, key, s, id); }
  }

  /** A caller's own id is unused whenever a session is created for it; only a generated id can collide. */
  lemma CallersIdIsUnused(x: Index, id: string, generated: string)
    requires Inv(x) && id != "" && Get(x, Some(id), generated).Created?
    ensures Unused(x, id)
  {
    assert forall t :: t in x.tempToReal ==> x.tempToReal[t] in x.realToTemp.Keys;
  }

  predicate CanRegister(x: Index, tempId: string, realId: string) {
    && tempId in x.pending && x.pending[tempId] !in x.closing
    && (Lookup(x, realId).Some? ==> Lookup(x, realId) == Some(x.pending[tempId]))
  }

  function Register(x: Index, tempId: string, realId: string): (Index, bool) {
    if !CanRegister(x, tempId, realId) then (x, false)
    else (x.(pending := x.pending - {tempId}, sessions := x.sessions[realId := x.pending[tempId]],
             tempToReal := x.tempToReal[tempId := realId], realToTemp := x.realToTemp[realId := tempId]), true)
  }

  /**
   A registration is accepted exactly for a pending session that is not closing, and a real id that is free or already
   its own; from then on both ids lead to the session, which is pending no more.
   */
  lemma RegistrationOutcome(x: Index, tempId: string, realId: string)
    requires Inv(x)
    ensures var (y, accepted) := Register(x, tempId, realId);
            && (accepted <==> && tempId in x.pending && x.pending[tempId] !in x.closing
                              && forall s :: Names(x, realId, s) ==> s == x.pending[tempId])
            && (accepted ==> && Lookup(y, realId) == Some(x.pending[tempId]) == Lookup(y, tempId)
                             && tempId !in y.pending && y.live == x.live && y.closing == x.closing)
            && (!accepted ==> y == x)
  {
    if Lookup(x, realId).Some? { LookupIsUnambiguous(x, realId, Lookup(x, realId).value); }
    forall s | Names(x, realId, s) ensures Lookup(x, realId) == Some(s) { LookupIsUnambiguous(x, realId, s); }
    if CanRegister(x, tempId, realId) {
      RegisteredIdIsFree(x, tempId, realId);
      RealIdLeadsTo(x, tempId, realId);
    }
  }

  lemma RealIdLeadsTo(x: Index, tempId: string, realId: string)
    requires Inv(x) && CanRegister(x, tempId, realId)
    ensures var y := Register(x, tempId, realId).0;
            Lookup(y, realId) == Some(x.pending[tempId]) == Lookup(y, tempId) && tempId !in y.pending
  {
    RegisteredIdIsFree(x, tempId, realId);
  }

  /** The real id of a registration that is accepted belongs to nobody, unless it is the temporary id itself. */
  lemma RegisteredIdIsFree(x: Index, tempId: string, realId: string)
    requires Inv(x) && CanRegister(x, tempId, realId)
    ensures realId == tempId || Unused(x, realId)
    ensures tempId !in x.sessions && tempId !in x.tempToReal
  {
    assert tempId in x.pending.Keys;
    if realId in x.tempToReal { assert x.tempToReal[realId] in x.realToTemp.Keys; }
    var s := x.pending[tempId];
    assert s in x.pending.Values;
    if Lookup(x, realId).Some? {
      LookupIsUnambiguous(x, realId, s);
      assert s !in x.sessions.Values;
    }
  }

  lemma RegisterKeepsMaps(x: Index, tempId: string, realId: string)
    requires Inv(x) && CanRegister(x, tempId, realId)
    ensures var y := Register(x, tempId, realId).0;
            && Inverse(y.tempToReal, y.realToTemp) && y.realToTemp.Keys == y.sessions.Keys
            && y.pending.Keys !! y.sessions.Keys && y.pending.Keys !! y.tempToReal.Keys
            && (forall t :: t in y.tempToReal && t in y.sessions ==> y.tempToReal[t] == t)
  {
    RegisteredIdIsFree(x, tempId, realId);
  }

  lemma RegisterKeepsOwners(x: Index, tempId: string, realId: string)
    requires Inv(x) && CanRegister(x, tempId, realId)
    ensures OwnedOnce(Register(x, tempId, realId).0)
  {
    RegisteredIdIsFree(x, tempId, realId);
    var y, s := Register(x, tempId, realId).0, x.pending[tempId];
    KeptValues(x.sessions, realId, s);
    forall v ensures v in y.pending.Values <==> v in x.pending.Values && v != s {
      if v in x.pending.Values && v != s {
        var k :| k in x.pending && x.pending[k] == v;
        assert k in y.pending && y.pending[k] == v;
      }
    }
    assert s in x.pending.Values;
  }

  // --- Forgetting ---

  predicate Hits(m: map<string, Session>, k: string, gone: set<Session>) { k in m && m[k] in gone }

  function Rest(m: map<string, Session>, gone: set<Session>): map<string, Session> {
    map k | k in m && m[k] !in gone :: m[k]
  }

  function RestTemps(tempToReal: map<string, string>, sessions: map<string, Session>, gone: set<Session>)
    : map<string, string>
  {
    map t | t in tempToReal && !Hits(sessions, tempToReal[t], gone) :: tempToReal[t]
  }

  function RestReals(realToTemp: map<string, string>, sessions: map<string, Session>, gone: set<Session>)
    : map<string, string>
  {
    map r | r in realToTemp && !Hits(sessions, r, gone) :: realToTemp[r]
  }

  /** All traces of the sessions are gone. */
  function Forget(x: Index, gone: set<Session>): Index {
    Index(Rest(x.sessions, gone), Rest(x.pending, gone),
          RestTemps(x.tempToReal, x.sessions, gone), RestReals(x.realToTemp, x.sessions, gone),
          x.closing - gone, x.live - gone)
  }

  lemma RestValues(m: map<string, Session>, gone: set<Session>)
    ensures Rest(m, gone).Values == m.Values - gone
  {
    forall v | v in m.Values - gone ensures v in Rest(m, gone).Values {
      var k :| k in m && m[k] == v;
      assert k in Rest(m, gone);
    }
  }

  lemma ForgetKeepsOwners(x: Index, gone: set<Session>)
    requires OwnedOnce(x)
    ensures OwnedOnce(Forget(x, gone))
  {
    RestValues(x.sessions, gone);
    RestValues(x.pending, gone);
  }

  lemma ForgetKeepsInv(x: Index, gone: set<Session>)
    requires Inv(x)
    ensures Inv(Forget(x, gone))
  {
    ForgetKeepsOwners(x, gone);
    hide OwnedOnce;
    var y := Forget(x, gone);
    forall r ensures r in y.realToTemp.Keys <==> r in y.sessions.Keys {
      assert r in x.realToTemp.Keys <==> r in x.sessions.Keys;
    }
  }

  function Unmapped(tempToReal: map<string, string>, realIds: set<string>): map<string, string> {
    map t | t in tempToReal && tempToReal[t] !in realIds :: tempToReal[t]
  }

  function IdsOf(m: map<string, Session>, session: Session): set<string> { set k | k in m && m[k] == session }

  lemma RestByIds(m: map<string, Session>, session: Session)
    ensures Rest(m, {session}) == m - IdsOf(m, session)
  {
  }

  lemma RestTempsByIds(tempToReal: map<string, string>, sessions: map<string, Session>, session: Session)
    ensures RestTemps(tempToReal, sessions, {session}) == Unmapped(tempToReal, IdsOf(sessions, session))
  {
  }

  lemma RestRealsByIds(realToTemp: map<string, string>, sessions: map<string, Session>, session: Session)
    ensures RestReals(realToTemp, sessions, {session}) == realToTemp - IdsOf(sessions, session)
  {
  }

  /** Forgetting one session by its ids. */
  lemma ForgetByIds(x: Index, session: Session)
    requires Inv(x)
    ensures var ids := set k | k in x.sessions && x.sessions[k] == session;
            var pendingIds := set k | k in x.pending && x.pending[k] == session;
            Forget(x, {session})
            == Index(x.sessions - ids, x.pending - pendingIds, Unmapped(x.tempToReal, ids), x.realToTemp - ids,
                     x.closing - {session}, x.live - {session})
  {
    hide Inv, Rest, RestTemps, RestReals, Unmapped;
    RestByIds(x.sessions, session);
    RestByIds(x.pending, session);
    RestTempsByIds(x.tempToReal, x.sessions, session);
    RestRealsByIds(x.realToTemp, x.sessions, session);
  }

  lemma RestTwice(m: map<string, Session>, gone: set<Session>, more: set<Session>)
    ensures Rest(Rest(m, gone), more) == Rest(m, gone + more)
  {
  }

  lemma RestTempsTwice(m: map<string, string>, sessions: map<string, Session>, gone: set<Session>, more: set<Session>)
    requires forall t :: t in m ==> m[t] in sessions
    ensures RestTemps(RestTemps(m, sessions, gone), Rest(sessions, gone), more) == RestTemps(m, sessions, gone + more)
  {
  }

  lemma RestRealsTwice(m: map<string, string>, sessions: map<string, Session>, gone: set<Session>, more: set<Session>)
    requires forall r :: r in m ==> r in sessions
    ensures RestReals(RestReals(m, sessions, gone), Rest(sessions, gone), more) == RestReals(m, sessions, gone + more)
  {
  }

  lemma ForgetTwice(x: Index, gone: set<Session>, more: set<Session>)
    requires Inv(x)
    ensures Forget(Forget(x, gone), more) == Forget(x, gone + more)
  {
    assert forall t :: t in x.tempToReal ==> x.tempToReal[t] in x.sessions.Keys;
    assert forall r :: r in x.realToTemp ==> r in x.sessions.Keys;
    RestTwice(x.sessions, gone, more);
    RestTwice(x.pending, gone, more);
    RestTempsTwice(x.tempToReal, x.sessions, gone, more);
    RestRealsTwice(x.realToTemp, x.sessions, gone, more);
  }

  lemma ForgetNobody(x: Index)
    ensures Forget(x, {}) == x
  {
  }

  lemma ForgetClosing(x: Index, gone: set<Session>)
    ensures Forget(x.(closing := x.closing + gone), gone) == Forget(x, gone)
  {
    assert x.closing + gone - gone == x.closing - gone;
  }

  lemma OwnersAreLive(x: Index, id: string, s: Session)
    requires Inv(x) && Names(x, id, s)
    ensures s in x.live
  {
  }

  lemma NothingLeft(x: Index)
    requires Inv(x)
    ensures var y := Forget(x, x.live);
            y.sessions == map[] && y.pending == map[] && y.tempToReal == map[] && y.realToTemp == map[]
  {
    assert forall k :: k in x.sessions ==> x.sessions[k] in x.sessions.Values;
    assert forall k :: k in x.pending ==> x.pending[k] in x.pending.Values;
    assert forall t :: t in x.tempToReal ==> x.tempToReal[t] in x.sessions.Keys;
    assert forall r :: r in x.realToTemp ==> r in x.sessions.Keys;
  }

  // --- The manager ---

  /** How stopping a session ends: stop() returned true, or false, or raised; or the caller was cancelled. */
  datatype Stop = Stopped | Refused | Raised | Cancelled

  class ManagedClaudeSessionManager {
    var sessions: map<string, Session>
    var pending: map<string, Session>
    var tempToReal: map<string, string>
    var realToTemp: map<string, string>
    var closing: set<Session>
    ghost var live: set<Session>

    ghost function View(): Index
      reads this
    {
      Index(sessions, pending, tempToReal, realToTemp, closing, live)
    }

    ghost predicate Valid()
      reads this
    {
      Inv(View())
    }

    constructor ()
      ensures Valid() && live == {}
    {
      sessions, pending, tempToReal, realToTemp, closing, live := map[], map[], map[], map[], {}, {};
    }

    /** _session_for_id */
    method SessionForId(id: string) returns (session: Option<Session>)
      ensures session == Lookup(View(), id)
    {
      var key := if id in tempToReal then tempToReal[id] else id;
      if key in sessions {
        return Some(sessions[key]);
      }
      session := if key in pending then Some(pending[key]) else None;
    }

    /** A closing session is never handed out. The index stays consistent unless a generated id collides. */
    method GetOrCreate(sessionId: Option<string>, generated: string) returns (got: Got)
      requires Valid()
      modifies `pending, `live
      ensures got == Get(old(View()), sessionId, generated)
      ensures !got.Created? ==> Valid() && View() == old(View())
      ensures got.Existing? ==> got.session !in closing && got.session in live
      ensures got.Created? ==> got.key in pending && fresh(pending[got.key]) && live == old(live) + {pending[got.key]}
      ensures got.Created? ==> View() == Create(old(View()), got.key, pending[got.key])
      ensures got.Created? ==> (Valid() <==> Unused(old(View()), got.key))
      ensures got.Created? && !Valid() ==> got.key == generated
    {
      if sessionId.Some? && sessionId.value != "" {
        var id := sessionId.value;
        var session := SessionForId(id);
        if session.Some? {
          if session.value in closing {
            return Closing;
          }
          return Existing(session.value, if id in tempToReal then tempToReal[id] else id);
        }
        CallersIdIsUnused(View(), id, generated);
      }
      var key := if sessionId.Some? && sessionId.value != "" then sessionId.value else generated;
      var created := new ManagedClaudeSession();
      CreateNeedsAnUnusedKey(View(), key, created);
      pending := pending[key := created];
      live := live + {created};
      got := Created(key);
    }

    /** It can happen: two sessions get the same generated id, and the first is live, but never found again. */
    static method SameGeneratedId() returns (manager: ManagedClaudeSessionManager, first: Session)
      ensures first in manager.live && !Found(manager.View(), first) && !manager.Valid()
    {
      manager := new ManagedClaudeSessionManager();
      var got := manager.GetOrCreate(None, "pending_00000000");
      first := manager.pending[got.key];
      ghost var before := manager.View();
      got := manager.GetOrCreate(None, "pending_00000000");
      Replaced(before, got.key, manager.pending[got.key]);
    }

    method RegisterRealSessionId(tempId: string, realId: string) returns (registered: bool)
      requires Valid()
      modifies `sessions, `pending, `tempToReal, `realToTemp
      ensures Valid() && (View(), registered) == Register(old(View()), tempId, realId)
    {
      if tempId !in pending || pending[tempId] in closing {
        return false;
      }
      var session := pending[tempId];
      var existing := SessionForId(realId);
      if existing.Some? && existing.value != session {
        return false;
      }
      RegisterKeepsMaps(View(), tempId, realId);
      RegisterKeepsOwners(View(), tempId, realId);
      pending := pending - {tempId};
      sessions := sessions[realId := session];
      tempToReal := tempToReal[tempId := realId];
      realToTemp := realToTemp[realId := tempId];
      registered := true;
    }

    /** The second half of _forget_session: each real id goes, with the temporary id it was registered from. */
    method DropRealIds(realIds: set<string>)
      requires Inverse(tempToReal, realToTemp)
      modifies `sessions, `tempToReal, `realToTemp
      ensures sessions == old(sessions) - realIds && realToTemp == old(realToTemp) - realIds
      ensures tempToReal == Unmapped(old(tempToReal), realIds)
    {
      var todo, done := realIds, {};
      assert Unmapped(tempToReal, {}) == tempToReal;
      while todo != {}
        invariant todo + done == realIds && todo !! done
        invariant sessions == old(sessions) - done && realToTemp == old(realToTemp) - done
        invariant tempToReal == Unmapped(old(tempToReal), done)
      {
        var realId :| realId in todo;
        sessions := sessions - {realId};
        if realId in realToTemp {
          tempToReal := tempToReal - {realToTemp[realId]};
          realToTemp := realToTemp - {realId};
        }
        todo, done := todo - {realId}, done + {realId};
      }
    }

    /** _forget_session */
    method ForgetSession(session: Session)
      requires Valid()
      modifies this
      ensures Valid() && View() == Forget(old(View()), {session})
    {
      ForgetKeepsInv(View(), {session});
      ForgetByIds(View(), session);
      var pendingIds := set k | k in pending && pending[k] == session;
      var realIds := set k | k in sessions && sessions[k] == session;
      DropRealIds(realIds);
      pending := pending - pendingIds;
      closing := closing - {session};
      live := live - {session};
    }

    /** The session is stopped and forgotten, or stays owned, found under the same ids, and closing. */
    method RemoveSession(sessionId: string, stop: Stop) returns (removed: bool)
      requires Valid()
      modifies this
      ensures Valid()
      ensures removed <==> Lookup(old(View()), sessionId).Some? && stop.Stopped?
      ensures View() == match Lookup(old(View()), sessionId)
                        case None => old(View())
                        case Some(s) => if stop.Stopped? then Forget(old(View()), {s})
                                        else old(View()).(closing := old(View()).closing + {s})
    {
      var session := SessionForId(sessionId);
      if session.None? {
        return false;
      }
      ghost var before := View();
      LookupIsUnambiguous(before, sessionId, session.value);
      OwnersAreLive(before, sessionId, session.value);
      closing := closing + {session.value};
      if !stop.Stopped? {
        return false;
      }
      ForgetClosing(before, {session.value});
      ForgetSession(session.value);
      removed := true;
    }

    /**
     Every session is marked, then stopped in some order. Those that stopped are forgotten, the others stay
     owned and closing; a cancellation leaves the sessions it did not reach in the same way.
     */
    method StopAll(stop: Session -> Stop) returns (failed: bool, ghost stopped: set<Session>)
      requires Valid()
      modifies this
      ensures Valid()
      ensures stopped <= old(live) && forall s :: s in stopped ==> stop(s).Stopped?
      ensures View() == Forget(old(View()).(closing := old(live)), stopped)
      ensures !failed ==> stopped == old(live)
      ensures !failed ==> sessions == map[] && pending == map[] && tempToReal == map[] && realToTemp == map[]
      ensures (forall s :: s in old(live) ==> !stop(s).Cancelled?) ==>
                forall s :: s in old(live) ==> (s in stopped <==> stop(s).Stopped?)
    {
      closing := sessions.Values + pending.Values + closing;
      ghost var before := View();
      var todo := closing;
      failed, stopped := false, {};
      ForgetNobody(before);
      assert Valid() && todo == before.live;
      hide Inv, Forget;
      while todo != {}
        invariant Valid() && todo <= before.live && stopped <= before.live - todo
        invariant View() == Forget(before, stopped)
        invariant forall s :: s in stopped ==> stop(s).Stopped?
        invariant forall s :: s in before.live - todo && stop(s).Stopped? ==> s in stopped
        invariant !failed ==> stopped == before.live - todo
      {
        var session :| session in todo;
        todo := todo - {session};
        match stop(session)
        case Cancelled => return true, stopped;
        case Stopped =>
          ForgetTwice(before, stopped, {session});
          ForgetSession(session);
          stopped := stopped + {session};
        case _ => failed := true;
      }
      if !failed {
        NothingLeft(before);
      }
    }
  }
}
