/** The session registry with its session objects, whose turn count is updated in place. */
module SessionsRuntime {
  import opened Options
  import opened Sessions

  class RoutedSession {
    const profile: ProfileId
    const id: SessionId
    const ephemeral: bool
    const policy: Policy
    const createdAt: real
    var turnCount: nat

    function View(): Session reads this { Session(profile, id, ephemeral, policy, createdAt, turnCount) }

    constructor (s: Session)
      ensures View() == s
    {
      profile, id, ephemeral, policy, createdAt, turnCount := s.profile, s.id, s.ephemeral, s.policy, s.createdAt, s.turns;
    }
  }

  function Views(sessions: map<Key, RoutedSession>): map<Key, Session>
    reads sessions.Values
  {
    map k | k in sessions :: sessions[k].View()
  }

  ghost function ViewOf(session: RoutedSession?): Option<Session>
    reads session
  {
    if session == null then None else Some(session.View())
  }

  function OneMore(s: Session): Session { s.(turns := s.turns + 1) }

  function WithTurn(r: Registry, key: Key, s: Session): Registry { r.(sessions := r.sessions[key := OneMore(s)]) }

  /** Counting the turn after caching is caching the counted session. */
  lemma Continued(r: Registry, route: Route, key: Key, profile: ProfileId, s: Session, e: Reply)
    requires key in r.sessions
    ensures Completed(r, route, key, profile, Some(s), e) ==
      if s.profile == profile then (WithTurn(r, key, s), Some(OneMore(s)))
      else
        match ResumeOrRecreate(route, profile, s, e)
        case None => (r, None)
        case Some(s1) => (WithTurn(Cached(r, key, s1, route), key, s1), Some(OneMore(s1)))
  {
    if s.profile != profile && ResumeOrRecreate(route, profile, s, e).Some? {
      var s1 := ResumeOrRecreate(route, profile, s, e).value;
      hide ResumeOrRecreate;
      assert r.sessions[key := s1][key := OneMore(s1)] == r.sessions[key := OneMore(s1)];
    }
  }

  class SessionRegistry {
    var sessions: map<Key, RoutedSession>
    var sessionRoutes: map<Key, string>

    /** No two keys share a session object. */
    ghost predicate Valid() reads this {
      && sessions.Keys == sessionRoutes.Keys
      && forall j, k :: j in sessions && k in sessions && j != k ==> sessions[j] != sessions[k]
    }

    ghost function View(): Registry reads this, sessions.Values { Registry(Views(sessions), sessionRoutes) }

    constructor ()
      ensures Valid() && View() == Registry(map[], map[])
    {
      sessions, sessionRoutes := map[], map[];
    }

    /** Evicts a cached session whose budget is spent; the session is released on the profile it still lives in. */
    method RotateExpired(route: Route, key: Key, session: RoutedSession, profile: ProfileId, now: real)
      returns (rotated: bool, released: set<SessionId>)
      requires Valid()
      modifies this
      ensures Valid() && rotated == Expired(route, session.View(), now)
      ensures View() == if rotated then Evicted(old(View()), {key}) else old(View())
      ensures sessions == if rotated then old(sessions) - {key} else old(sessions)
      ensures released == if rotated && session.profile == profile then {session.id} else {}
    {
      released := {};
      var age := now - session.createdAt;
      if route.maxTurns.Some? && session.turnCount >= route.maxTurns.value {
      } else if route.maxAge.Some? && age >= route.maxAge.value {
      } else {
        return false, {};
      }
      sessions, sessionRoutes := sessions - {key}, sessionRoutes - {key};
      if session.profile == profile {
        released := {session.id};
      }
      rotated := true;
    }

    method ResumeOrRecreateSession(route: Route, profile: ProfileId, previous: RoutedSession, e: Reply)
      returns (session: RoutedSession?)
      ensures session != null ==> fresh(session)
      ensures ViewOf(session) == ResumeOrRecreate(route, profile, previous.View(), e)
    {
      var id;
      if e.resume.Raised? && !route.recreate {
        return null;
      } else if e.resume.Resumed? {
        id := previous.id;
      } else {
        if e.newId.None? {
          return null;
        }
        id := e.newId.value;
      }
      var resumed := id == previous.id;
      session := new RoutedSession(
        Session(profile, id, previous.ephemeral, route.policy, if resumed then previous.createdAt else e.now,
                if resumed then previous.turnCount else 0));
    }

    /** Caches a new session object under `key`. */
    method Cache(route: Route, key: Key, session: RoutedSession)
      requires Valid() && forall k :: k in sessions ==> sessions[k] != session
      modifies this
      ensures Valid() && sessions == old(sessions)[key := session]
      ensures View() == Cached(old(View()), key, session.View(), route)
    {
      ghost var before := Views(sessions);
      sessions, sessionRoutes := sessions[key := session], sessionRoutes[key := route.key];
      assert Views(sessions) == before[key := session.View()];
    }

    /** The first half of `get`'s answer: the cached session goes on, in this profile process or resumed in a new one. */
    method Continue(route: Route, key: Key, profile: ProfileId, cached: RoutedSession, e: Reply)
      returns (session: RoutedSession?)
      requires Valid() && key in sessions && sessions[key] == cached
      modifies this, cached
      ensures Valid()
      ensures (View(), ViewOf(session)) == Completed(old(View()), route, key, profile, Some(old(cached.View())), e)
      ensures session != null ==> key in sessions && sessions[key] == session
    {
      Continued(View(), route, key, profile, cached.View(), e);
      hide Completed, Cached, ResumeOrRecreate;
      session := cached;
      if cached.profile != profile {
        session := ResumeOrRecreateSession(route, profile, cached, e);
        if session == null {
          return;
        }
        Cache(route, key, session);
      }
      CountTurn(key, session);
    }

    method CountTurn(key: Key, session: RoutedSession)
      requires Valid() && key in sessions && sessions[key] == session
      modifies session
      ensures Valid() && session.View() == OneMore(old(session.View()))
      ensures View() == WithTurn(old(View()), key, old(session.View()))
    {
      ghost var before := Views(sessions);
      session.turnCount := session.turnCount + 1;
      assert Views(sessions) == before[key := session.View()];
    }

    /** The second half: a new session, cached unless it is ephemeral. */
    method Create(route: Route, key: Key, profile: ProfileId, e: Reply) returns (session: RoutedSession?)
      requires Valid()
      modifies this
      ensures Valid()
      ensures (View(), ViewOf(session)) == Completed(old(View()), route, key, profile, None, e)
      ensures session != null && !session.ephemeral ==> key in sessions && sessions[key] == session
    {
      if e.newId.None? {
        return null;
      }
      var ephemeral := route.policy == Ephemeral;
      session := new RoutedSession(Session(profile, e.newId.value, ephemeral, route.policy, e.now, 1));
      if !ephemeral {
        Cache(route, key, session);
      }
    }

    method Get(route: Route, key: Key, profile: ProfileId, now: real, e: Reply) returns (session: RoutedSession?)
      requires Valid()
      modifies this, if key in sessions then {sessions[key]} else {}
      ensures Valid() && (View(), ViewOf(session)) == Got(old(View()), route, key, profile, now, e)
    {
      hide Completed, Expired, Evicted;
      if key in sessions {
        var existing := sessions[key];
        var rotated, released := RotateExpired(route, key, existing, profile, now);
        if !rotated {
          session := Continue(route, key, profile, existing, e);
          return;
        }
      }
      session := Create(route, key, profile, e);
    }

    method ReplaceAfterRestart(route: Route, key: Key, profile: ProfileId, previous: RoutedSession, e: Reply)
      returns (replacement: RoutedSession?)
      requires Valid()
      modifies this
      ensures Valid()
      ensures (View(), ViewOf(replacement)) == Replaced(old(View()), route, key, profile, old(previous.View()), e)
    {
      replacement := ResumeOrRecreateSession(route, profile, previous, e);
      if replacement != null && route.policy != Ephemeral {
        Cache(route, key, replacement);
      }
    }
  
    /** Evicts what matches, releases each evicted session on its profile, and counts them. */
    method DropSessionsMatching(matches: (Key, string, Session) -> bool)
      returns (evicted: nat, released: map<Key, SessionId>)
      requires Valid()
      modifies this
      ensures Valid() && Dropped(old(View()), matches, Matching(old(View()), matches), View(), evicted, released)
    {
      hide Dropped, Matching;
      ghost var before := View();
      evicted, released := 0, map[];
      var todo := sessionRoutes.Keys;
      ghost var gone: set<Key> := {};
      NothingDropped(before, matches, released);
      NothingLooked(before, matches);
      while todo != {}
        invariant Valid() && todo <= sessionRoutes.Keys
        invariant Dropped(before, matches, gone, View(), evicted, released)
        invariant Looked(before, matches, todo, gone)
        decreases |todo|
      {
        var key :| key in todo;
        var session := sessions[key];
        var hit := matches(key, sessionRoutes[key], session.View());
        LookedOn(before, matches, todo, gone, key, View(), evicted, released);
        todo := todo - {key};
        if hit {
          DropKey(key);
          released := released[key := session.id];
          evicted, gone := evicted + 1, gone + {key};
        }
      }
      AllLooked(before, matches, gone);
    }

    method DropKey(key: Key)
      requires Valid() && key in sessions
      modifies this
      ensures Valid() && View() == Evicted(old(View()), {key}) && sessionRoutes == old(sessionRoutes) - {key}
    {
      sessions, sessionRoutes := sessions - {key}, sessionRoutes - {key};
    }
  }

  ghost function Matching(r: Registry, matches: (Key, string, Session) -> bool): set<Key> {
    set k | k in r.routes && k in r.sessions && matches(k, r.routes[k], r.sessions[k])
  }

  function Ids(r: Registry, keys: set<Key>): map<Key, SessionId> {
    map k | k in keys && k in r.sessions :: r.sessions[k].id
  }

  /** `gone`, and nothing else, went from `before`: each session once, counted and released. */
  ghost predicate Dropped(before: Registry, matches: (Key, string, Session) -> bool, gone: set<Key>, after: Registry,
                          evicted: nat, released: map<Key, SessionId>) {
    && gone <= Matching(before, matches) && after == Evicted(before, gone)
    && evicted == |gone| && released == Ids(before, gone)
  }

  /** Everything that matches is gone or still to be looked at. */
  ghost predicate Looked(before: Registry, matches: (Key, string, Session) -> bool, todo: set<Key>, gone: set<Key>) {
    gone + (todo * Matching(before, matches)) == Matching(before, matches) && gone !! todo
  }

  lemma NothingDropped(before: Registry, matches: (Key, string, Session) -> bool, released: map<Key, SessionId>)
    requires released == map[]
    ensures Dropped(before, matches, {}, before, 0, released)
  {
    hide Matching;
    assert Evicted(before, {}) == before;
  }

  lemma NothingLooked(before: Registry, matches: (Key, string, Session) -> bool)
    ensures Looked(before, matches, before.routes.Keys, {})
  {
    assert Matching(before, matches) <= before.routes.Keys;
    hide Matching;
  }

  lemma EvictedTwice(r: Registry, gone: set<Key>, key: Key)
    ensures Evicted(Evicted(r, gone), {key}) == Evicted(r, gone + {key})
  {
    assert r.sessions - gone - {key} == r.sessions - (gone + {key});
    assert r.routes - gone - {key} == r.routes - (gone + {key});
  }

  lemma OneIdMore(r: Registry, gone: set<Key>, key: Key)
    requires key in r.sessions
    ensures Ids(r, gone)[key := r.sessions[key].id] == Ids(r, gone + {key})
  {
  }

  lemma LookedOn(before: Registry, matches: (Key, string, Session) -> bool, todo: set<Key>, gone: set<Key>, key: Key,
                 after: Registry, evicted: nat, released: map<Key, SessionId>)
    requires Dropped(before, matches, gone, after, evicted, released) && Looked(before, matches, todo, gone)
    requires key in todo && key in after.routes && key in after.sessions
    ensures if matches(key, after.routes[key], after.sessions[key]) then
              Dropped(before, matches, gone + {key}, Evicted(after, {key}), evicted + 1,
                      released[key := after.sessions[key].id])
              && Looked(before, matches, todo - {key}, gone + {key})
            else Looked(before, matches, todo - {key}, gone)
  {
    assert after.sessions[key] == before.sessions[key] && after.routes[key] == before.routes[key];
    assert key in Matching(before, matches) <==> matches(key, after.routes[key], after.sessions[key]);
    hide Matching;
    if key in Matching(before, matches) {
      EvictedTwice(before, gone, key);
      OneIdMore(before, gone, key);
    }
    hide Evicted, Ids;
  }

  lemma AllLooked(before: Registry, matches: (Key, string, Session) -> bool, gone: set<Key>)
    requires Looked(before, matches, {}, gone)
    ensures gone == Matching(before, matches)
  {
  }

  /** The two evictions of a reap are such drops. */
  lemma DropsAreMatching(r: Registry, live: set<string>, policies: map<string, Policy>, only: Option<set<string>>)
    ensures NotIn(r, live, only) ==
            Matching(r, (_, route, _) => route !in live && InScope(route, only))
    ensures Mismatched(r, policies, only) ==
            Matching(r, (_, route, s: Session) => route in policies && s.policy != policies[route] && InScope(route, only))
  {
  }
}
