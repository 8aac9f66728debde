/** The daily sweep over sessions, and the token cleanup it competes with. */
module SessionSweep {
  import opened Support
  import opened SessionCache
  import RefreshTokens

  const GRACE_DAYS: nat := 1
  const HARD_DELETE_AFTER_DAYS: nat := 90

  /** MAX(expires_at) over the family's token rows; None when the join finds none. */
  function LatestExpiry(tokens: seq<RefreshTokens.Row>, family: Id): Option<Time> {
    if tokens == [] then None
    else
      var rest := LatestExpiry(tokens[..|tokens| - 1], family);
      var last := tokens[|tokens| - 1];
      if last.family != family then rest
      else if rest.None? then Some(last.expires)
      else Some(Max(rest.value, last.expires))
  }

  lemma {:induction false} LatestIsGreatest(tokens: seq<RefreshTokens.Row>, family: Id)
    ensures LatestExpiry(tokens, family).None? <==> forall i :: 0 <= i < |tokens| ==> tokens[i].family != family
    ensures LatestExpiry(tokens, family).Some? ==>
              && (forall i :: 0 <= i < |tokens| && tokens[i].family == family ==>
                    tokens[i].expires <= LatestExpiry(tokens, family).value)
              && (exists i :: 0 <= i < |tokens| && tokens[i].family == family
                              && tokens[i].expires == LatestExpiry(tokens, family).value)
  {
    if tokens != [] {
      var n := |tokens| - 1;
      var front := tokens[..n];
      LatestIsGreatest(front, family);
      if LatestExpiry(front, family).Some? {
        var i :| 0 <= i < |front| && front[i].family == family && front[i].expires == LatestExpiry(front, family).value;
        assert tokens[i].family == family && tokens[i].expires == front[i].expires;
      }
      forall i | 0 <= i < n ensures tokens[i] == front[i] {
      }
    }
  }

  predicate Due(s: Session, tokens: seq<RefreshTokens.Row>, cutoff: Time) {
    !s.revoked && LatestExpiry(tokens, s.family).Some? && LatestExpiry(tokens, s.family).value < cutoff
  }

  function RevokeIds(sessions: map<Id, Session>, tokens: seq<RefreshTokens.Row>, cutoff: Time): set<Id> {
    set id | id in sessions && Due(sessions[id], tokens, cutoff)
  }

  function Revoked(sessions: map<Id, Session>, ids: set<Id>, now: Time): map<Id, Session> {
    map id | id in sessions ::
      if id in ids then sessions[id].(revoked := true, revokedAt := Some(now)) else sessions[id]
  }

  /** A NULL revoked_at compares as unknown, so such a row stays. */
  predicate Purgeable(s: Session, cutoff: Time) {
    s.revoked && s.revokedAt.Some? && s.revokedAt.value < cutoff
  }

  function DeleteIds(sessions: map<Id, Session>, cutoff: Time): set<Id> {
    set id | id in sessions && Purgeable(sessions[id], cutoff)
  }

  datatype Swept = Swept(sessions: map<Id, Session>, revoked: set<Id>, deleted: set<Id>)

  function Sweep(sessions: map<Id, Session>, tokens: seq<RefreshTokens.Row>, now: Time): Swept {
    var revoke := RevokeIds(sessions, tokens, now - GRACE_DAYS * DAY);
    var marked := Revoked(sessions, revoke, now);
    var delete := DeleteIds(marked, now - HARD_DELETE_AFTER_DAYS * DAY);
    Swept(marked - delete, revoke, delete)
  }

  // ---- Exact, disjoint, idempotent --------------------------------------------- //

  /** Every clause of a session's token family, spelled out over the token rows. */
  ghost predicate FamilyDone(tokens: seq<RefreshTokens.Row>, family: Id, cutoff: Time) {
    && (exists i :: 0 <= i < |tokens| && tokens[i].family == family)
    && (forall i :: 0 <= i < |tokens| && tokens[i].family == family ==> tokens[i].expires < cutoff)
  }

  lemma DueIsFamilyDone(s: Session, tokens: seq<RefreshTokens.Row>, cutoff: Time)
    ensures Due(s, tokens, cutoff) <==> !s.revoked && FamilyDone(tokens, s.family, cutoff)
  {
    LatestIsGreatest(tokens, s.family);
  }

  /**
   The sweep revokes precisely the active sessions that have tokens, all of
   them expired past the grace period; what it revokes it does not delete, it
   deletes only rows revoked more than ninety days ago, and leaves every other
   row alone.
  */
  lemma SweepIsExact(sessions: map<Id, Session>, tokens: seq<RefreshTokens.Row>, now: Time, id: Id)
    requires id in sessions
    ensures var r := Sweep(sessions, tokens, now);
            && (id in r.revoked <==>
                  !sessions[id].revoked && FamilyDone(tokens, sessions[id].family, now - 1 * DAY))
            && (id in r.deleted <==>
                  && sessions[id].revoked && sessions[id].revokedAt.Some?
                  && sessions[id].revokedAt.value < now - 90 * DAY)
            && (id in r.sessions <==> id !in r.deleted)
            && r.revoked !! r.deleted
            && (id in r.sessions ==>
                  r.sessions[id] ==
                  if id in r.revoked then sessions[id].(revoked := true, revokedAt := Some(now)) else sessions[id])
  {
    DueIsFamilyDone(sessions[id], tokens, now - GRACE_DAYS * DAY);
  }

  /** A second sweep at the same instant finds nothing to do. */
  lemma SweepIsIdempotent(sessions: map<Id, Session>, tokens: seq<RefreshTokens.Row>, now: Time)
    ensures var once := Sweep(sessions, tokens, now);
            Sweep(once.sessions, tokens, now) == Swept(once.sessions, {}, {})
  {
    var once := Sweep(sessions, tokens, now);
    var again := Sweep(once.sessions, tokens, now);
    assert again.revoked == {};
    assert Revoked(once.sessions, {}, now) == once.sessions;
    assert again.deleted == {};
    assert again.sessions == once.sessions;
  }

  // ---- The token cleanup first --------------------------------------------------- //

  /** delete_expired over the token rows in table order. */
  function DropExpired(tokens: seq<RefreshTokens.Row>, cutoff: Time): seq<RefreshTokens.Row> {
    if tokens == [] then []
    else
      var rest := DropExpired(tokens[..|tokens| - 1], cutoff);
      if tokens[|tokens| - 1].expires >= cutoff then rest + [tokens[|tokens| - 1]] else rest
  }

  lemma {:induction false} CleanupKeepsLatest(tokens: seq<RefreshTokens.Row>, cutoff: Time, family: Id)
    ensures var latest := LatestExpiry(tokens, family);
            LatestExpiry(DropExpired(tokens, cutoff), family) ==
            if latest.Some? && latest.value >= cutoff then latest else None
  {
    if tokens != [] {
      var n := |tokens| - 1;
      var kept := DropExpired(tokens[..n], cutoff);
      CleanupKeepsLatest(tokens[..n], cutoff, family);
      assert (kept + [tokens[n]])[..|kept|] == kept;
    }
  }

  /**
   Running the token cleanup first keeps exactly the due sessions whose family
   outlives its cutoff: the revoke set only shrinks, and with the two jobs'
   equal grace periods it is empty.
  */
  lemma CleanupFirstStarvesSweep(sessions: map<Id, Session>, tokens: seq<RefreshTokens.Row>, cleanup: Time,
                                 cutoff: Time)
    ensures RevokeIds(sessions, DropExpired(tokens, cleanup), cutoff) ==
            set id | id in RevokeIds(sessions, tokens, cutoff)
                     && LatestExpiry(tokens, sessions[id].family).value >= cleanup
    ensures cleanup >= cutoff ==> RevokeIds(sessions, DropExpired(tokens, cleanup), cutoff) == {}
  {
    forall id | id in sessions
      ensures Due(sessions[id], DropExpired(tokens, cleanup), cutoff) <==>
              Due(sessions[id], tokens, cutoff) && LatestExpiry(tokens, sessions[id].family).value >= cleanup
    {
      CleanupKeepsLatest(tokens, cleanup, sessions[id].family);
    }
  }

  // ---- The worker ----------------------------------------------------------------- //

  datatype Stats = Stats(revoked: nat, deleted: nat, evicted: nat)

  /** The keys of an earlier state, less those removed since. */
  ghost predicate SoFar<T(!new)>(before: map<Id, T>, after: map<Id, T>, gone: set<Id>) {
    after == before - gone
  }

  lemma RemovedMore<T(!new)>(before: map<Id, T>, after: map<Id, T>, gone: set<Id>, more: set<Id>)
    requires SoFar(before, after, gone)
    ensures SoFar(before, after - more, gone + more)
  {
  }

  /** The sessions whose key, or whose last-seen marker, cannot be deleted because the call raises. */
  datatype Outage = Outage(session: set<Id>, lastSeen: set<Id>)

  /** The touched sessions whose key is deleted, and those whose marker is deleted too. */
  function KeyGone(touched: set<Id>, redis: bool, outage: Outage): set<Id> {
    if redis then touched - outage.session else {}
  }

  function BothGone(touched: set<Id>, redis: bool, outage: Outage): set<Id> {
    KeyGone(touched, redis, outage) - outage.lastSeen
  }

  /** A touched session loses its key if Redis is there and that deletion does not raise, then its marker likewise. */
  lemma WhatIsGone(touched: set<Id>, redis: bool, outage: Outage, sid: Id)
    ensures sid in KeyGone(touched, redis, outage) <==> redis && sid in touched && sid !in outage.session
    ensures sid in BothGone(touched, redis, outage) <==>
              redis && sid in touched && sid !in outage.session && sid !in outage.lastSeen
  {
  }

  lemma NothingGone(cache: map<Id, Cached>, lastSeen: map<Id, Time>, outage: Outage)
    ensures KeyGone({}, true, outage) == {} && BothGone({}, true, outage) == {}
    ensures SoFar(cache, cache, {}) && SoFar(lastSeen, lastSeen, {})
  {
  }

  /** What one more session adds to either. */
  function KeyOf(sid: Id, outage: Outage): set<Id> {
    if sid in outage.session then {} else {sid}
  }

  function BothOf(sid: Id, outage: Outage): set<Id> {
    KeyOf(sid, outage) - outage.lastSeen
  }

  lemma OneMoreGone(done: set<Id>, sid: Id, outage: Outage)
    requires sid !in done
    ensures KeyGone(done + {sid}, true, outage) == KeyGone(done, true, outage) + KeyOf(sid, outage)
    ensures BothGone(done + {sid}, true, outage) == BothGone(done, true, outage) + BothOf(sid, outage)
    ensures |BothGone(done + {sid}, true, outage)| == |BothGone(done, true, outage)| + |BothOf(sid, outage)|
  {
    assert BothGone(done, true, outage) !! BothOf(sid, outage);
  }

  /** What one more eviction makes of both stores. */
  lemma OneMoreEvicted(before: map<Id, Cached>, cache: map<Id, Cached>, seenBefore: map<Id, Time>,
                       lastSeen: map<Id, Time>, done: set<Id>, sid: Id, outage: Outage)
    requires sid !in done
    requires SoFar(before, cache, KeyGone(done, true, outage))
    requires SoFar(seenBefore, lastSeen, BothGone(done, true, outage))
    ensures SoFar(before, cache - KeyOf(sid, outage), KeyGone(done + {sid}, true, outage))
    ensures SoFar(seenBefore, lastSeen - BothOf(sid, outage), BothGone(done + {sid}, true, outage))
    ensures |BothGone(done + {sid}, true, outage)| == |BothGone(done, true, outage)| + |BothOf(sid, outage)|
  {
    OneMoreGone(done, sid, outage);
    RemovedMore(before, cache, KeyGone(done, true, outage), KeyOf(sid, outage));
    RemovedMore(seenBefore, lastSeen, BothGone(done, true, outage), BothOf(sid, outage));
  }

  class CleanupWorker {
    var sessions: map<Id, Session>
    var cache: map<Id, Cached>
    var lastSeen: map<Id, Time>

    constructor (sessions: map<Id, Session>, cache: map<Id, Cached>, lastSeen: map<Id, Time>)
      ensures this.sessions == sessions && this.cache == cache && this.lastSeen == lastSeen
    {
      this.sessions, this.cache, this.lastSeen := sessions, cache, lastSeen;
    }

    /** Both deletions for one session; the first to raise ends them. */
    method EvictOne(sid: Id, outage: Outage) returns (evicted: bool)
      modifies this`cache, this`lastSeen
      ensures |BothOf(sid, outage)| == if evicted then 1 else 0
      ensures cache == old(cache) - KeyOf(sid, outage)
      ensures lastSeen == old(lastSeen) - BothOf(sid, outage)
    {
      assert cache - {} == cache && lastSeen - {} == lastSeen;
      assert BothOf(sid, outage) == if sid in outage.session || sid in outage.lastSeen then {} else {sid};
      if sid in outage.session {
        return false;
      }
      cache := cache - {sid};
      if sid in outage.lastSeen {
        return false;
      }
      lastSeen := lastSeen - {sid};
      return true;
    }

    /** The same as one more step of a sweep over many sessions. */
    method EvictNext(sid: Id, outage: Outage, ghost before: map<Id, Cached>, ghost seenBefore: map<Id, Time>,
                     ghost done: set<Id>)
      returns (evicted: bool)
      requires sid !in done
      requires SoFar(before, cache, KeyGone(done, true, outage))
      requires SoFar(seenBefore, lastSeen, BothGone(done, true, outage))
      modifies this`cache, this`lastSeen
      ensures SoFar(before, cache, KeyGone(done + {sid}, true, outage))
      ensures SoFar(seenBefore, lastSeen, BothGone(done + {sid}, true, outage))
      ensures |BothGone(done + {sid}, true, outage)|
              == |BothGone(done, true, outage)| + if evicted then 1 else 0
    {
      OneMoreEvicted(before, cache, seenBefore, lastSeen, done, sid, outage);
      evicted := EvictOne(sid, outage);
    }

    /** Best effort, session by session: only those with both keys deleted count, and the first key may go alone. */
    method EvictCaches(touched: set<Id>, redis: bool, outage: Outage) returns (attempted: nat)
      modifies this`cache, this`lastSeen
      ensures cache == old(cache) - KeyGone(touched, redis, outage)
      ensures lastSeen == old(lastSeen) - BothGone(touched, redis, outage)
      ensures attempted == |BothGone(touched, redis, outage)|
    {
      attempted := 0;
      NothingGone(cache, lastSeen, outage);
      if !redis {
        return;
      }
      var rest, done: set<Id> := touched, {};
      ghost var before, seenBefore := cache, lastSeen;
      while rest != {}
        invariant done + rest == touched && done !! rest
        invariant SoFar(before, cache, KeyGone(done, true, outage))
        invariant SoFar(seenBefore, lastSeen, BothGone(done, true, outage))
        invariant attempted == |BothGone(done, true, outage)|
        decreases rest
      {
        var sid :| sid in rest;
        var evicted := EvictNext(sid, outage, before, seenBefore, done);
        if evicted {
          attempted := attempted + 1;
        }
        rest, done := rest - {sid}, done + {sid};
      }
      assert done == touched;
    }

    /** The transaction of a sweep: revoke, then purge. */
    method RevokeAndPurge(tokens: seq<RefreshTokens.Row>, now: Time) returns (revoked: set<Id>, deleted: set<Id>)
      modifies this`sessions
      ensures Swept(sessions, revoked, deleted) == Sweep(old(sessions), tokens, now)
    {
      revoked := RevokeIds(sessions, tokens, now - GRACE_DAYS * DAY);
      if revoked != {} {
        sessions := Revoked(sessions, revoked, now);
      } else {
        assert Revoked(sessions, revoked, now) == sessions;
      }
      deleted := DeleteIds(sessions, now - HARD_DELETE_AFTER_DAYS * DAY);
      if deleted != {} {
        sessions := sessions - deleted;
      } else {
        assert sessions - deleted == sessions;
      }
    }

    /** One sweep: revoke, purge, commit, then evict whatever was touched. */
    method RunOnce(tokens: seq<RefreshTokens.Row>, now: Time, redis: bool, outage: Outage)
      returns (stats: Stats)
      modifies this
      ensures var r := Sweep(old(sessions), tokens, now);
              var both := BothGone(r.revoked + r.deleted, redis, outage);
              && sessions == r.sessions && stats == Stats(|r.revoked|, |r.deleted|, |both|)
              && cache == old(cache) - KeyGone(r.revoked + r.deleted, redis, outage)
              && lastSeen == old(lastSeen) - both
    {
      var revoked, deleted := RevokeAndPurge(tokens, now);
      var evicted := EvictCaches(revoked + deleted, redis, outage);
      stats := Stats(|revoked|, |deleted|, evicted);
    }
  }
}
