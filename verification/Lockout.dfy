/** Password login: a failure counter and a timed lock on each account. */
module Lockout {
  import opened Support

  const THRESHOLD: nat := 5
  const LOCK: Time := 15 * MINUTE

  datatype User = User(
    id: Id,
    active: bool,
    deleted: bool,
    verified: bool,
    passwordHash: string,
    attempts: nat,
    lockedUntil: Option<Time>)

  /** One login: the lock is read at one instant and, on failure, set from a later one. */
  datatype Attempt = Attempt(checkedAt: Time, stampedAt: Time, matches: bool)

  datatype Outcome = NoUser | Inactive | Unverified | Locked | WrongPassword(lockedNow: bool) | LoggedIn

  predicate IsLocked(u: User, now: Time) {
    u.lockedUntil.Some? && now < u.lockedUntil.value
  }

  /** What login does with an account; requireVerified is the REQUIRE_EMAIL_VERIFICATION setting. */
  function Try(u: User, a: Attempt, requireVerified: bool): (User, Outcome) {
    if u.deleted then (u, NoUser)
    else if !u.active then (u, Inactive)
    else if requireVerified && !u.verified then (u, Unverified)
    else if IsLocked(u, a.checkedAt) then (u, Locked)
    else if !a.matches then
      var failed := u.(attempts := u.attempts + 1);
      if failed.attempts >= THRESHOLD then (failed.(lockedUntil := Some(a.stampedAt + LOCK)), WrongPassword(true))
      else (failed, WrongPassword(false))
    else if u.attempts > 0 then (u.(attempts := 0, lockedUntil := None), LoggedIn)
    else (u, LoggedIn)
  }

  /** What a login does to the account, condition by condition. */
  lemma OutcomeWhen(u: User, a: Attempt, requireVerified: bool)
    ensures var (u', o) := Try(u, a, requireVerified);
            var open := !u.deleted && u.active && (requireVerified ==> u.verified);
            var locked := u.lockedUntil.Some? && a.checkedAt < u.lockedUntil.value;
            && (o == NoUser <==> u.deleted)
            && (o == Inactive <==> !u.deleted && !u.active)
            && (o == Unverified <==> !u.deleted && u.active && requireVerified && !u.verified)
            && (o == Locked <==> open && locked)
            && (o == LoggedIn <==> open && !locked && a.matches)
            && (o == WrongPassword(true) <==> open && !locked && !a.matches && u.attempts >= 4)
            && (o == WrongPassword(false) <==> open && !locked && !a.matches && u.attempts < 4)
            && u' == u.(attempts := u'.attempts, lockedUntil := u'.lockedUntil)
            && u'.attempts == (if o.WrongPassword? then u.attempts + 1 else if o.LoggedIn? then 0 else u.attempts)
            && (o == WrongPassword(true) ==> u'.lockedUntil == Some(a.stampedAt + 15 * MINUTE))
            && (o == LoggedIn && u.attempts > 0 ==> u'.lockedUntil == None)
            && (o != WrongPassword(true) && !(o == LoggedIn && u.attempts > 0) ==> u'.lockedUntil == u.lockedUntil)
  {
  }

  // ---- Runs ----------------------------------------------------------------- //

  /** Logins, and whatever else touches the account: nothing else writes the counter or the lock. */
  datatype Event =
    | Login(attempt: Attempt)
    | SetFlags(active: bool, deleted: bool, verified: bool)

  function After(u: User, events: seq<Event>, requireVerified: bool): User
    decreases |events|
  {
    if events == [] then u
    else
      var before := After(u, events[..|events| - 1], requireVerified);
      match events[|events| - 1]
      case Login(a) => Try(before, a, requireVerified).0
      case SetFlags(active, deleted, verified) => before.(active := active, deleted := deleted, verified := verified)
  }

  /** The outcomes of the logins among the events, in order. */
  function Outcomes(u: User, events: seq<Event>, requireVerified: bool): seq<Outcome>
    decreases |events|
  {
    if events == [] then []
    else
      var front := events[..|events| - 1];
      match events[|events| - 1]
      case Login(a) =>
        Outcomes(u, front, requireVerified) + [Try(After(u, front, requireVerified), a, requireVerified).1]
      case SetFlags(_, _, _) => Outcomes(u, front, requireVerified)
  }

  /** How often the password was really compared. */
  function Checks(outcomes: seq<Outcome>): nat {
    if outcomes == [] then 0
    else
      Checks(outcomes[..|outcomes| - 1])
      + if outcomes[|outcomes| - 1].WrongPassword? || outcomes[|outcomes| - 1].LoggedIn? then 1 else 0
  }

  /** Wrong passwords since the last login that succeeded. */
  function FailuresSinceLogin(outcomes: seq<Outcome>): nat {
    if outcomes == [] || outcomes[|outcomes| - 1].LoggedIn? then 0
    else
      FailuresSinceLogin(outcomes[..|outcomes| - 1])
      + if outcomes[|outcomes| - 1].WrongPassword? then 1 else 0
  }

  /** Every login falls between two instants, and a lock is never stamped before its check. */
  predicate Within(events: seq<Event>, from: Time, upTo: Time) {
    forall i :: 0 <= i < |events| && events[i].Login? ==>
      from <= events[i].attempt.checkedAt <= upTo && events[i].attempt.checkedAt <= events[i].attempt.stampedAt
  }

  /** One more login adds one outcome to everything counted. */
  lemma OneMoreLogin(u: User, front: seq<Event>, a: Attempt, requireVerified: bool)
    ensures var before, so := After(u, front, requireVerified), Outcomes(u, front, requireVerified);
            var (u', o) := Try(before, a, requireVerified);
            && After(u, front + [Login(a)], requireVerified) == u'
            && Outcomes(u, front + [Login(a)], requireVerified) == so + [o]
            && Checks(so + [o]) == Checks(so) + (if o.WrongPassword? || o.LoggedIn? then 1 else 0)
            && FailuresSinceLogin(so + [o])
               == if o.LoggedIn? then 0 else FailuresSinceLogin(so) + (if o.WrongPassword? then 1 else 0)
  {
    assert (front + [Login(a)])[..|front|] == front;
    var so := Outcomes(u, front, requireVerified);
    var o := Try(After(u, front, requireVerified), a, requireVerified).1;
    assert (so + [o])[..|so|] == so;
  }

  // ---- The rate bound -------------------------------------------------------------- //

  /** After five checks every further one waits out a whole lock. */
  ghost predicate Paced(u: User, checks: nat, from: Time, upTo: Time) {
    && checks <= u.attempts
    && (checks >= THRESHOLD ==> u.lockedUntil.Some? && u.lockedUntil.value >= from + (checks - 4) * LOCK)
    && (checks > THRESHOLD ==> upTo >= from + (checks - THRESHOLD) * LOCK)
  }

  lemma TryKeepsPace(u: User, a: Attempt, requireVerified: bool, checks: nat, from: Time, upTo: Time)
    requires Paced(u, checks, from, upTo)
    requires from <= a.checkedAt <= upTo && a.checkedAt <= a.stampedAt
    requires !Try(u, a, requireVerified).1.LoggedIn?
    ensures var (u', o) := Try(u, a, requireVerified);
            Paced(u', if o.WrongPassword? then checks + 1 else checks, from, upTo)
  {
    assert (checks + 1 - 4) * LOCK == (checks - 4) * LOCK + LOCK;
    assert (checks + 1 - THRESHOLD) * LOCK == (checks - 4) * LOCK;
  }

  lemma {:induction false} RunKeepsPace(u: User, events: seq<Event>, requireVerified: bool, from: Time, upTo: Time)
    requires Within(events, from, upTo)
    requires LoggedIn !in Outcomes(u, events, requireVerified)
    ensures Paced(After(u, events, requireVerified), Checks(Outcomes(u, events, requireVerified)), from, upTo)
    decreases |events|
  {
    if events != [] {
      var n := |events| - 1;
      var front := events[..n];
      var before, so := After(u, front, requireVerified), Outcomes(u, front, requireVerified);
      assert Within(front, from, upTo);
      if events[n].SetFlags? {
        RunKeepsPace(u, front, requireVerified, from, upTo);
      } else {
        assert events == front + [Login(events[n].attempt)];
        OneMoreLogin(u, front, events[n].attempt, requireVerified);
        var o := Try(before, events[n].attempt, requireVerified).1;
        assert (so + [o])[|so|] == o;
        assert forall i :: 0 <= i < |so| ==> (so + [o])[i] == so[i];
        RunKeepsPace(u, front, requireVerified, from, upTo);
        TryKeepsPace(before, events[n].attempt, requireVerified, Checks(so), from, upTo);
      }
    }
  }

  /**
   Whatever state the account starts in, a stretch of logins none of which
   succeeds compares the password at most five times plus once per full lock
   period.  No order among the attempts is needed, only that each lock is
   stamped no earlier than its check.
  */
  lemma RateBound(u: User, events: seq<Event>, requireVerified: bool, from: Time, upTo: Time)
    requires from <= upTo && Within(events, from, upTo)
    requires LoggedIn !in Outcomes(u, events, requireVerified)
    ensures Checks(Outcomes(u, events, requireVerified)) <= 5 + (upTo - from) / (15 * MINUTE)
  {
    RunKeepsPace(u, events, requireVerified, from, upTo);
    var k := Checks(Outcomes(u, events, requireVerified));
    var periods: nat := if k > THRESHOLD then k - THRESHOLD else 0;
    QuotientBound(periods, upTo - from);
  }

  lemma QuotientBound(k: nat, span: Time)
    requires span >= k * LOCK
    ensures k <= span / LOCK
  {
  }

  /** Five failures at once, then one as each lock runs out. */
  function Patient(from: Time, n: nat): seq<Event> {
    if n == 0 then [] else Patient(from, n - 1) + [Login(FailureAt(PatientTime(from, n)))]
  }

  function FailureAt(at: Time): Attempt {
    Attempt(at, at, false)
  }

  function PatientTime(from: Time, n: nat): Time {
    if n <= THRESHOLD then from else from + (n - THRESHOLD) * LOCK
  }

  /** Where the account is after n of those failures. */
  function PatientUser(u: User, from: Time, n: nat): User {
    u.(attempts := n, lockedUntil := if n < THRESHOLD then None else Some(PatientTime(from, n) + LOCK))
  }

  lemma NextPatientStep(u: User, from: Time, n: nat, requireVerified: bool)
    requires u.active && !u.deleted && u.verified && n > 0
    ensures Try(PatientUser(u, from, n - 1), FailureAt(PatientTime(from, n)), requireVerified)
            == (PatientUser(u, from, n), WrongPassword(n >= THRESHOLD))
  {
    if n > THRESHOLD {
      assert (n - 1 - THRESHOLD) * LOCK + LOCK == (n - THRESHOLD) * LOCK;
    }
  }

  lemma {:induction false} PatientWithin(from: Time, n: nat)
    ensures Within(Patient(from, n), from, PatientTime(from, n))
  {
    if n > 0 {
      PatientWithin(from, n - 1);
      if n > THRESHOLD {
        assert (n - 1 - THRESHOLD) * LOCK + LOCK == (n - THRESHOLD) * LOCK;
      }
    }
  }

  /** A stretch of nothing but failures, and where it leaves the account. */
  ghost predicate AllFail(u: User, events: seq<Event>, requireVerified: bool, end: User, checks: nat) {
    && After(u, events, requireVerified) == end
    && LoggedIn !in Outcomes(u, events, requireVerified)
    && Checks(Outcomes(u, events, requireVerified)) == checks
  }

  lemma OneMoreFailure(u: User, front: seq<Event>, a: Attempt, requireVerified: bool, end: User, checks: nat)
    requires AllFail(u, front, requireVerified, end, checks)
    requires Try(end, a, requireVerified).1.WrongPassword?
    ensures AllFail(u, front + [Login(a)], requireVerified, Try(end, a, requireVerified).0, checks + 1)
  {
    OneMoreLogin(u, front, a, requireVerified);
  }

  lemma {:induction false} PatientRun(u: User, from: Time, n: nat, requireVerified: bool)
    requires u.active && !u.deleted && u.verified && u.attempts == 0 && u.lockedUntil.None?
    ensures AllFail(u, Patient(from, n), requireVerified, PatientUser(u, from, n), n)
  {
    if n == 0 {
      assert PatientUser(u, from, 0) == u;
    } else {
      PatientRun(u, from, n - 1, requireVerified);
      NextPatientStep(u, from, n, requireVerified);
      OneMoreFailure(u, Patient(from, n - 1), FailureAt(PatientTime(from, n)), requireVerified,
                     PatientUser(u, from, n - 1), n - 1);
    }
  }

  /** The bound is met exactly: for every number of lock periods some run reaches it. */
  lemma RateBoundIsTight(u: User, from: Time, periods: nat, requireVerified: bool)
    requires u.active && !u.deleted && u.verified && u.attempts == 0 && u.lockedUntil.None?
    ensures exists events ::
              && Within(events, from, from + periods * (15 * MINUTE))
              && LoggedIn !in Outcomes(u, events, requireVerified)
              && Checks(Outcomes(u, events, requireVerified)) == 5 + periods
  {
    PatientRun(u, from, THRESHOLD + periods, requireVerified);
    PatientWithin(from, THRESHOLD + periods);
  }

  // ---- What the counter and the lock mean --------------------------------------------- //

  /**
   From a fresh account the counter is the number of wrong passwords since the
   last success, however much time passes, and a lock is stored exactly when
   that number is at least five.
  */
  lemma {:induction false} CounterIsTheFailures(u: User, events: seq<Event>, requireVerified: bool)
    requires u.attempts == 0 && u.lockedUntil.None?
    ensures var end := After(u, events, requireVerified);
            && end.attempts == FailuresSinceLogin(Outcomes(u, events, requireVerified))
            && (end.lockedUntil.Some? <==> end.attempts >= 5)
    decreases |events|
  {
    if events != [] {
      var n := |events| - 1;
      CounterIsTheFailures(u, events[..n], requireVerified);
      if events[n].Login? {
        assert events == events[..n] + [Login(events[n].attempt)];
        OneMoreLogin(u, events[..n], events[n].attempt, requireVerified);
      }
    }
  }

  /**
   The lock does not reset itself: when it runs out the counter stays, so for
   any account that was ever locked and has not logged in since, one wrong
   password locks it again at once.
  */
  lemma ExpiryKeepsTheCounter(u: User, events: seq<Event>, requireVerified: bool, a: Attempt)
    requires u.attempts == 0 && u.lockedUntil.None? && !a.matches
    ensures var end := After(u, events, requireVerified);
            Try(end, a, requireVerified).1 == WrongPassword(true) <==>
              && !end.deleted && end.active && (requireVerified ==> end.verified)
              && !IsLocked(end, a.checkedAt)
              && FailuresSinceLogin(Outcomes(u, events, requireVerified)) >= 4
  {
    CounterIsTheFailures(u, events, requireVerified);
  }

  // ---- The service ------------------------------------------------------------------------ //

  datatype LoginRow = LoginRow(user: Id, successful: bool, reason: string)

  /** The audit row of an outcome; an unknown or inactive account leaves none. */
  function RowFor(user: Id, o: Outcome): seq<LoginRow> {
    match o
    case NoUser => []
    case Inactive => []
    case Unverified => [LoginRow(user, false, "email_not_verified")]
    case Locked => [LoginRow(user, false, "account_locked")]
    case WrongPassword(lockedNow) =>
      [LoginRow(user, false, if lockedNow then "account_locked" else "invalid_password")]
    case LoggedIn => [LoginRow(user, true, "")]
  }

  /** The service inside one request: what is committed, and what the request sees with its own writes. */
  class AuthService {
    /** Users by lower-cased e-mail address. */
    var committedUsers: map<string, User>
    var committedHistory: seq<LoginRow>
    var users: map<string, User>
    var history: seq<LoginRow>

    constructor (users: map<string, User>)
      ensures this.users == committedUsers == users && history == committedHistory == []
    {
      this.users, committedUsers, history, committedHistory := users, users, [], [];
    }

    /** authenticate_user, for a password check verify; only a wrong password commits, and before its history row. */
    method AuthenticateUser(email: string, password: string, verify: (string, string) -> bool,
                            requireVerified: bool, checkedAt: Time, stampedAt: Time)
      returns (r: Option<User>)
      modifies this
      ensures email !in old(users) ==>
                && r == None && users == old(users) && history == old(history)
                && committedUsers == old(committedUsers) && committedHistory == old(committedHistory)
      ensures email in old(users) ==>
                var u := old(users)[email];
                var (u', o) := Try(u, Attempt(checkedAt, stampedAt, verify(password, u.passwordHash)), requireVerified);
                && users == old(users)[email := u']
                && history == old(history) + RowFor(u.id, o)
                && r == (if o.LoggedIn? then Some(u') else None)
                && committedUsers == (if o.WrongPassword? then users else old(committedUsers))
                && committedHistory == (if o.WrongPassword? then old(history) else old(committedHistory))
      ensures email in old(users) ==>
                var u := old(users)[email];
                history == old(history)
                  + if u.deleted || !u.active then []
                    else if requireVerified && !u.verified then [LoginRow(u.id, false, "email_not_verified")]
                    else if u.lockedUntil.Some? && checkedAt < u.lockedUntil.value
                    then [LoginRow(u.id, false, "account_locked")]
                    else if verify(password, u.passwordHash) then [LoginRow(u.id, true, "")]
                    else [LoginRow(u.id, false, if u.attempts >= 4 then "account_locked" else "invalid_password")]
    {
      if email !in users || users[email].deleted {
        return None;
      }
      var user := users[email];
      if !user.active {
        return None;
      }
      if requireVerified && !user.verified {
        history := history + [LoginRow(user.id, false, "email_not_verified")];
        return None;
      }
      if IsLocked(user, checkedAt) {
        history := history + [LoginRow(user.id, false, "account_locked")];
        return None;
      }
      if !verify(password, user.passwordHash) {
        user := user.(attempts := user.attempts + 1);
        var reason := "invalid_password";
        if user.attempts >= THRESHOLD {
          user := user.(lockedUntil := Some(stampedAt + LOCK));
          reason := "account_locked";
        }
        users := users[email := user];
        committedUsers, committedHistory := users, history;
        history := history + [LoginRow(user.id, false, reason)];
        return None;
      }
      if user.attempts > 0 {
        user := user.(attempts := 0, lockedUntil := None);
        users := users[email := user];
      }
      history := history + [LoginRow(user.id, true, "")];
      return Some(user);
    }

    /**
     The login endpoint under its session.  The counter and the lock are kept
     either way; of the history only successes are, for the error that answers
     a failed login rolls its row back.
    */
    method Login(email: string, password: string, verify: (string, string) -> bool,
                 requireVerified: bool, checkedAt: Time, stampedAt: Time)
      returns (ok: bool)
      requires users == committedUsers && history == committedHistory
      modifies this
      ensures users == committedUsers && history == committedHistory
      ensures !ok ==> committedHistory == old(committedHistory)
      ensures email !in old(users) ==> !ok && committedUsers == old(committedUsers)
      ensures email in old(users) ==>
                var u := old(users)[email];
                var (u', o) := Try(u, Attempt(checkedAt, stampedAt, verify(password, u.passwordHash)), requireVerified);
                && (ok <==> o.LoggedIn?)
                && committedUsers == old(users)[email := u']
                && (ok ==> committedHistory == old(committedHistory) + [LoginRow(u.id, true, "")])
                && (ok <==>
                      && !u.deleted && u.active && (requireVerified ==> u.verified)
                      && !(u.lockedUntil.Some? && checkedAt < u.lockedUntil.value)
                      && verify(password, u.passwordHash))
    {
      var user := AuthenticateUser(email, password, verify, requireVerified, checkedAt, stampedAt);
      if user.None? {
        users, history := committedUsers, committedHistory;
        return false;
      }
      committedUsers, committedHistory := users, history;
      return true;
    }
  }
}
