/**
 The read-through session cache.  A fill is two steps, reading the row and
 writing the cache, and anything may happen in between.
*/
module SessionCache {
  import opened Support

  datatype Session = Session(user: Id, family: Id, revoked: bool, revokedAt: Option<Time>)

  /** What the cache serves; readAt is when its row was read, which the cache itself does not know. */
  datatype Cached = Cached(user: Id, revoked: bool, readAt: Time, expires: Time)

  /** A row a request has read and not yet written to the cache. */
  datatype Fill = Fill(sid: Id, user: Id, revoked: bool, readAt: Time)

  /** ttl is the cache lifetime, slack the longest a fill may take. */
  datatype Limits = Limits(ttl: nat, slack: nat)

  datatype State = State(
    now: Time,
    rows: map<Id, Session>,
    created: set<Id>,
    cache: map<Id, Cached>,
    fills: map<Id, Fill>)

  datatype Action =
    | Create(sid: Id, user: Id, family: Id)
    | Revoke(sid: Id)
    | RevokeAll(user: Id)
    | Delete(sid: Id)
    | ReadRow(p: Id, sid: Id)
    | WriteCache(p: Id)
    | DropFill(p: Id)
    | Evict(sid: Id)
    | Tick(elapsed: nat)

  predicate Present(s: State, sid: Id, user: Id) {
    sid in s.rows && !s.rows[sid].revoked && s.rows[sid].user == user
  }

  function RevokeWhere(s: State, sids: set<Id>): map<Id, Session> {
    map i | i in s.rows ::
      if i in sids && !s.rows[i].revoked then s.rows[i].(revoked := true, revokedAt := Some(s.now)) else s.rows[i]
  }

  function Step(lim: Limits, s: State, a: Action): State {
    match a
    case Create(sid, user, family) =>
      if sid in s.created then s
      else s.(rows := s.rows[sid := Session(user, family, false, None)], created := s.created + {sid})
    case Revoke(sid) => s.(rows := RevokeWhere(s, {sid}))
    case RevokeAll(user) => s.(rows := RevokeWhere(s, set i | i in s.rows && s.rows[i].user == user))
    case Delete(sid) => s.(rows := s.rows - {sid})
    case ReadRow(p, sid) =>
      if sid in s.rows && p !in s.fills
      then s.(fills := s.fills[p := Fill(sid, s.rows[sid].user, s.rows[sid].revoked, s.now)])
      else s
    case WriteCache(p) =>
      if p in s.fills && s.now - s.fills[p].readAt <= lim.slack then
        var f := s.fills[p];
        s.(cache := s.cache[f.sid := Cached(f.user, f.revoked, f.readAt, s.now + lim.ttl)], fills := s.fills - {p})
      else s
    case DropFill(p) => s.(fills := s.fills - {p})
    case Evict(sid) => s.(cache := s.cache - {sid})
    case Tick(elapsed) => s.(now := s.now + elapsed)
  }

  /** Revoking one session, or all of a user's, closes those that are open, at this moment, and touches no other row. */
  lemma RevocationIsExact(lim: Limits, s: State, a: Action, sid: Id)
    requires (a.Revoke? || a.RevokeAll?) && sid in s.rows
    ensures var after := Step(lim, s, a);
            && after == s.(rows := after.rows) && after.rows.Keys == s.rows.Keys
            && after.rows[sid]
               == if !s.rows[sid].revoked && (if a.Revoke? then sid == a.sid else s.rows[sid].user == a.user)
                  then s.rows[sid].(revoked := true, revokedAt := Some(s.now))
                  else s.rows[sid]
  {
  }

  /** The table and the cache are written apart: no write to one ever touches the other. */
  lemma TableAndCacheAreApart(lim: Limits, s: State, a: Action)
    ensures a.Create? || a.Revoke? || a.RevokeAll? || a.Delete? ==>
              Step(lim, s, a).cache == s.cache && Step(lim, s, a).fills == s.fills
    ensures a.ReadRow? || a.WriteCache? || a.DropFill? || a.Evict? ==> Step(lim, s, a).rows == s.rows
    ensures a.Delete? ==> Step(lim, s, a).rows == s.rows - {a.sid}
    ensures a.Evict? ==> Step(lim, s, a).cache == s.cache - {a.sid}
  {
  }

  /** All states of a run, the first to the last. */
  function Trace(lim: Limits, s: State, actions: seq<Action>): (t: seq<State>)
    ensures |t| == |actions| + 1
  {
    if actions == [] then [s]
    else
      var before := Trace(lim, s, actions[..|actions| - 1]);
      before + [Step(lim, before[|before| - 1], actions[|actions| - 1])]
  }

  function Final(lim: Limits, s: State, actions: seq<Action>): State {
    Trace(lim, s, actions)[|actions|]
  }

  function Empty(now: Time): State {
    State(now, map[], {}, map[], map[])
  }

  // ---- Answering a request ---------------------------------------------------- //

  datatype Payload = Payload(user: Id, revoked: bool)

  predicate Hit(s: State, sid: Id) {
    sid in s.cache && s.now < s.cache[sid].expires
  }

  /** The cache answers when it is reachable and holds the key; otherwise the table does. */
  function Lookup(s: State, sid: Id, redis: bool): Option<Payload> {
    if redis && Hit(s, sid) then Some(Payload(s.cache[sid].user, s.cache[sid].revoked))
    else if sid in s.rows then Some(Payload(s.rows[sid].user, s.rows[sid].revoked))
    else None
  }

  predicate Admitted(s: State, sid: Id, user: Id, redis: bool) {
    Lookup(s, sid, redis) == Some(Payload(user, false))
  }

  // ---- Bounded staleness --------------------------------------------------------- //

  /** The row really stood in the table, with this owner and flag, at the given time. */
  predicate Stood(s: State, sid: Id, user: Id, revoked: bool, at: Time) {
    s.now == at && sid in s.rows && s.rows[sid].user == user && s.rows[sid].revoked == revoked
  }

  ghost predicate Seen(t: seq<State>, sid: Id, user: Id, revoked: bool, at: Time) {
    exists i :: 0 <= i < |t| && Stood(t[i], sid, user, revoked, at)
  }

  ghost predicate Grounded(lim: Limits, t: seq<State>, s: State) {
    && (forall p :: p in s.fills ==> Seen(t, s.fills[p].sid, s.fills[p].user, s.fills[p].revoked, s.fills[p].readAt))
    && (forall sid :: sid in s.cache ==>
          Seen(t, sid, s.cache[sid].user, s.cache[sid].revoked, s.cache[sid].readAt))
    && (forall sid :: sid in s.cache ==>
          s.cache[sid].readAt <= s.now && s.cache[sid].expires <= s.cache[sid].readAt + lim.slack + lim.ttl)
    && (forall p :: p in s.fills ==> s.fills[p].readAt <= s.now)
  }

  lemma SeenGrows(t: seq<State>, s: State, sid: Id, user: Id, revoked: bool, at: Time)
    requires Seen(t, sid, user, revoked, at) || Stood(s, sid, user, revoked, at)
    ensures Seen(t + [s], sid, user, revoked, at)
  {
    if Seen(t, sid, user, revoked, at) {
      var i :| 0 <= i < |t| && Stood(t[i], sid, user, revoked, at);
      assert Stood((t + [s])[i], sid, user, revoked, at);
    } else {
      assert Stood((t + [s])[|t|], sid, user, revoked, at);
    }
  }

  lemma StepKeepsGrounded(lim: Limits, t: seq<State>, s: State, a: Action)
    requires t != [] && t[|t| - 1] == s && Grounded(lim, t, s)
    ensures Grounded(lim, t + [Step(lim, s, a)], Step(lim, s, a))
  {
    var s' := Step(lim, s, a);
    forall p | p in s'.fills
      ensures Seen(t + [s'], s'.fills[p].sid, s'.fills[p].user, s'.fills[p].revoked, s'.fills[p].readAt)
    {
      var f := s'.fills[p];
      assert (p in s.fills && s.fills[p] == f) || Stood(s', f.sid, f.user, f.revoked, f.readAt);
      SeenGrows(t, s', f.sid, f.user, f.revoked, f.readAt);
    }
    forall sid | sid in s'.cache
      ensures Seen(t + [s'], sid, s'.cache[sid].user, s'.cache[sid].revoked, s'.cache[sid].readAt)
    {
      var c := s'.cache[sid];
      SeenGrows(t, s', sid, c.user, c.revoked, c.readAt);
    }
  }

  lemma {:induction false} RunIsGrounded(lim: Limits, start: Time, actions: seq<Action>)
    ensures Grounded(lim, Trace(lim, Empty(start), actions), Final(lim, Empty(start), actions))
  {
    if actions != [] {
      var front := actions[..|actions| - 1];
      RunIsGrounded(lim, start, front);
      StepKeepsGrounded(lim, Trace(lim, Empty(start), front), Final(lim, Empty(start), front), actions[|actions| - 1]);
    }
  }

  lemma {:induction false} ClockNeverTurnsBack(lim: Limits, s: State, actions: seq<Action>, i: nat)
    requires i <= |actions|
    ensures Trace(lim, s, actions)[i].now <= Final(lim, s, actions).now
  {
    if i < |actions| {
      ClockNeverTurnsBack(lim, s, actions[..|actions| - 1], i);
    }
  }

  /** Somewhere on the trace, after one time and no later than another, the session stood unrevoked. */
  ghost predicate PresentWithin(t: seq<State>, sid: Id, user: Id, after: Time, upTo: Time) {
    exists i :: 0 <= i < |t| && Present(t[i], sid, user) && after < t[i].now <= upTo
  }

  /**
   A request admitted at time t belongs to a session that stood unrevoked in
   the table at some moment after t - ttl - slack and no later than t; with
   fills taken as one step (slack 0) that is the promised (t - ttl, t].
  */
  lemma AdmissionIsFresh(lim: Limits, start: Time, actions: seq<Action>, sid: Id, user: Id, redis: bool)
    requires Admitted(Final(lim, Empty(start), actions), sid, user, redis)
    requires lim.ttl > 0
    ensures var t := Trace(lim, Empty(start), actions);
            var now := t[|actions|].now;
            PresentWithin(t, sid, user, now - lim.ttl - lim.slack, now)
  {
    var t, s := Trace(lim, Empty(start), actions), Final(lim, Empty(start), actions);
    RunIsGrounded(lim, start, actions);
    assert t[|actions|] == s;
    if redis && Hit(s, sid) {
      var c := s.cache[sid];
      assert Seen(t, sid, c.user, c.revoked, c.readAt);
      var i :| 0 <= i < |t| && Stood(t[i], sid, c.user, c.revoked, c.readAt);
      assert Present(t[i], sid, user) && s.now - lim.ttl - lim.slack < t[i].now <= s.now;
    } else {
      assert Present(t[|actions|], sid, user) && s.now - lim.ttl - lim.slack < t[|actions|].now <= s.now;
    }
  }

  // ---- Revocation through the cache ------------------------------------------------ //

  /** Ids are never reused and revocation is never undone, in the table, the cache and the fills alike. */
  ghost predicate Inv(s: State) {
    && (forall sid :: sid in s.rows ==> sid in s.created)
    && (forall sid :: sid in s.cache ==> sid in s.created)
    && (forall p :: p in s.fills ==> s.fills[p].sid in s.created)
    && (forall sid :: sid in s.cache && s.cache[sid].revoked ==> sid in s.rows ==> s.rows[sid].revoked)
    && (forall p :: p in s.fills && s.fills[p].revoked ==>
          s.fills[p].sid in s.rows ==> s.rows[s.fills[p].sid].revoked)
  }

  lemma StepKeepsInv(lim: Limits, s: State, a: Action)
    requires Inv(s)
    ensures Inv(Step(lim, s, a))
  {
  }

  lemma {:induction false} RunKeepsInv(lim: Limits, s: State, actions: seq<Action>)
    requires Inv(s)
    ensures Inv(Final(lim, s, actions))
  {
    if actions != [] {
      RunKeepsInv(lim, s, actions[..|actions| - 1]);
      StepKeepsInv(lim, Final(lim, s, actions[..|actions| - 1]), actions[|actions| - 1]);
    }
  }

  /** A cached revocation is never wrong, and without the cache admission is exactly the table's answer. */
  lemma RevokedAnswersAreRight(lim: Limits, start: Time, actions: seq<Action>, sid: Id)
    ensures var s := Final(lim, Empty(start), actions);
            && (Lookup(s, sid, true).Some? && Lookup(s, sid, true).value.revoked ==>
                  forall user :: !Present(s, sid, user))
            && (forall user :: Admitted(s, sid, user, false) <==> Present(s, sid, user))
  {
    RunKeepsInv(lim, Empty(start), actions);
  }

  /** The table no longer admits the session. */
  predicate Closed(s: State, sid: Id) {
    sid in s.created && (sid in s.rows ==> s.rows[sid].revoked)
  }

  /** Something still remembers the session as good: a live key, or a fill that can still be written. */
  ghost predicate Remembered(lim: Limits, s: State, sid: Id) {
    || (Hit(s, sid) && !s.cache[sid].revoked)
    || exists p ::
         p in s.fills && s.fills[p].sid == sid && !s.fills[p].revoked && s.now - s.fills[p].readAt <= lim.slack
  }

  lemma StepKeepsForgotten(lim: Limits, s: State, a: Action, sid: Id)
    requires Closed(s, sid) && !Remembered(lim, s, sid)
    ensures Closed(Step(lim, s, a), sid) && !Remembered(lim, Step(lim, s, a), sid)
  {
    var s' := Step(lim, s, a);
    forall p | p in s'.fills && s'.fills[p].sid == sid && !s'.fills[p].revoked
      ensures s'.now - s'.fills[p].readAt > lim.slack
    {
      assert p in s.fills && s.fills[p] == s'.fills[p];
    }
  }

  lemma {:induction false} ForgottenForever(lim: Limits, s: State, actions: seq<Action>, sid: Id)
    requires Closed(s, sid) && !Remembered(lim, s, sid)
    ensures Closed(Final(lim, s, actions), sid) && !Remembered(lim, Final(lim, s, actions), sid)
  {
    if actions != [] {
      ForgottenForever(lim, s, actions[..|actions| - 1], sid);
      StepKeepsForgotten(lim, Final(lim, s, actions[..|actions| - 1]), actions[|actions| - 1], sid);
    }
  }

  lemma FinalOfOne(lim: Limits, s: State, a: Action)
    ensures Final(lim, s, [a]) == Step(lim, s, a)
  {
    assert [a][..|[a]| - 1] == [];
    assert Trace(lim, s, []) == [s];
  }

  /**
   After revocation and eviction the session is shut out for good if and only
   if neither the cache nor a fill under way still remembers it as good.
  */
  lemma EvictionIsFinal(lim: Limits, s: State, sid: Id)
    requires Closed(s, sid) && lim.ttl > 0
    ensures (forall future, user :: !Admitted(Final(lim, s, future), sid, user, true)) <==> !Remembered(lim, s, sid)
  {
    if Remembered(lim, s, sid) {
      if Hit(s, sid) && !s.cache[sid].revoked {
        assert Final(lim, s, []) == s;
        assert Admitted(Final(lim, s, []), sid, s.cache[sid].user, true);
      } else {
        var p :| p in s.fills && s.fills[p].sid == sid && !s.fills[p].revoked
                 && s.now - s.fills[p].readAt <= lim.slack;
        var write := [WriteCache(p)];
        FinalOfOne(lim, s, WriteCache(p));
        assert Admitted(Final(lim, s, write), sid, s.fills[p].user, true);
      }
    } else {
      forall future, user ensures !Admitted(Final(lim, s, future), sid, user, true) {
        ForgottenForever(lim, s, future, sid);
      }
    }
  }

  // ---- The service ------------------------------------------------------------------- //

  /** Whether Redis is configured, and whether this read and this write reach it. */
  datatype Redis = Redis(configured: bool, readOk: bool, writeOk: bool)

  class SessionService {
    var rows: map<Id, Session>
    var cache: map<Id, Cached>
    var lastSeen: map<Id, Time>
    var now: Time

    constructor (rows: map<Id, Session>, now: Time)
      ensures this.rows == rows && this.now == now && cache == map[] && lastSeen == map[]
    {
      this.rows, this.now, cache, lastSeen := rows, now, map[], map[];
    }

    ghost function Model(): State
      reads this
    {
      State(now, rows, {}, cache, map[])
    }

    /** get_session_cached; a miss fills the cache when it can. */
    method GetSessionCached(sid: Id, redis: Redis, ttl: nat) returns (r: Option<Payload>)
      modifies this`cache
      ensures r == Lookup(old(Model()), sid, redis.configured && redis.readOk)
      ensures var hit := redis.configured && redis.readOk && Hit(old(Model()), sid);
              cache == if !hit && sid in rows && redis.configured && redis.writeOk
                       then old(cache)[sid := Cached(rows[sid].user, rows[sid].revoked, now, now + ttl)]
                       else old(cache)
      ensures cache != old(cache) ==>
                forall p, lim: Limits :: lim.ttl == ttl ==>
                  cache == Step(lim, Step(lim, old(Model()), ReadRow(p, sid)), WriteCache(p)).cache
    {
      if redis.configured && redis.readOk && sid in cache && now < cache[sid].expires {
        return Some(Payload(cache[sid].user, cache[sid].revoked));
      }
      if sid !in rows {
        return None;
      }
      if redis.configured && redis.writeOk {
        cache := cache[sid := Cached(rows[sid].user, rows[sid].revoked, now, now + ttl)];
      }
      return Some(Payload(rows[sid].user, rows[sid].revoked));
    }

    /** The session check of get_current_user, enforcement switched on. */
    method CheckSession(sid: Id, user: Id, redis: Redis, ttl: nat) returns (admitted: bool)
      modifies this`cache
      ensures admitted <==> Admitted(old(Model()), sid, user, redis.configured && redis.readOk)
      ensures admitted <==>
                if redis.configured && redis.readOk && sid in old(cache) && now < old(cache)[sid].expires
                then !old(cache)[sid].revoked && old(cache)[sid].user == user
                else sid in rows && !rows[sid].revoked && rows[sid].user == user
    {
      var session := GetSessionCached(sid, redis, ttl);
      if session.None? || session.value.revoked || session.value.user != user {
        return false;
      }
      return true;
    }

    /**
     invalidate_session_cache: the session key, then the last-seen marker; the
     first deletion to raise ends it.  With the key gone it is the machine's
     eviction.
    */
    method InvalidateSessionCache(sid: Id, configured: bool, keyRaises: bool, markerRaises: bool)
      modifies this`cache, this`lastSeen
      ensures cache == if configured && !keyRaises then old(cache) - {sid} else old(cache)
      ensures lastSeen == if configured && !keyRaises && !markerRaises then old(lastSeen) - {sid} else old(lastSeen)
      ensures configured && !keyRaises ==> forall lim :: Model() == Step(lim, old(Model()), Evict(sid))
    {
      if !configured || keyRaises {
        return;
      }
      cache := cache - {sid};
      if markerRaises {
        return;
      }
      lastSeen := lastSeen - {sid};
    }
  }
}
