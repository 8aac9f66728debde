/**
 Session rows beside the token rows.  A login may open a session for its
 family.  A rotation writes that row between its claim and its successor; a
 session revocation marks it before it picks any token row.  Both hold the
 row's lock until their transaction ends, and that decides which of the two
 goes first.  Tokens are those of RefreshTokens, statement by statement.
*/
module SessionRevocation {
  import opened Support
  import Tokens = RefreshTokens

  /** The session of a family; there is one row per family at most. */
  datatype Session = Session(user: Id, revoked: bool)

  /**
   What a request has to do with session rows.  A rotation that finds its
   session unrevoked (Saw) writes it and goes on (Passed); without one it goes
   on having locked nothing.  A revocation marks the rows it picked one by one.
  */
  datatype Hold =
    | Clear
    | Saw
    | Passed(locked: set<Id>)
    | Marking(target: Tokens.Target, todo: set<Id>, marked: set<Id>)

  /**
   sessions is what is committed, by family.  tracked records the families
   that were given a session, swept those whose session the cleanup closed.
  */
  datatype Database = Database(tokens: Tokens.System, sessions: map<Id, Session>, holds: map<Id, Hold>,
                               tracked: set<Id>, swept: set<Id>)

  datatype Move =
    | Login(token: Id, family: Id, user: Id, expires: Time, track: bool)
    | Statement(action: Tokens.Action)
    | SeeSession(p: Id)
    | TouchSession(p: Id)
    | PickSession(p: Id, family: Id)
    | PickSessions(p: Id, user: Id)
    | MarkSession(p: Id, family: Id)
    | SweepSession(family: Id, cutoff: Time)
    | PurgeSession(family: Id)

  function HoldOf(d: Database, p: Id): Hold {
    if p in d.holds then d.holds[p] else Clear
  }

  function PhaseOf(d: Database, p: Id): Tokens.Phase {
    Tokens.ProcOf(d.tokens, p).phase
  }

  function SetHold(d: Database, p: Id, hold: Hold): Database {
    d.(holds := d.holds[p := hold])
  }

  /** The session rows a request keeps locked. */
  function Locked(hold: Hold): set<Id> {
    match hold
    case Passed(locked) => locked
    case Marking(_, _, marked) => marked
    case _ => {}
  }

  function Marked(hold: Hold): set<Id> {
    if hold.Marking? then hold.marked else {}
  }

  /** No other request keeps the family's session row locked. */
  predicate RowFree(d: Database, p: Id, family: Id) {
    forall q :: q in d.holds && q != p ==> family !in Locked(d.holds[q])
  }

  /** The family has an unrevoked session row. */
  predicate Active(d: Database, family: Id) {
    family in d.sessions && !d.sessions[family].revoked
  }

  function WithRevoked(sessions: map<Id, Session>, families: set<Id>): map<Id, Session> {
    map f | f in sessions :: if f in families then sessions[f].(revoked := true) else sessions[f]
  }

  /**
   Which token statement may run next, as far as session rows are concerned.
   Token rows are picked once every session row is marked; without marking any
   only by user, by token, or for a family without an unrevoked session.
  */
  predicate Allowed(d: Database, a: Tokens.Action) {
    match a
    case Login(_, _, _, _) => false
    case Read(p, _) => HoldOf(d, p).Clear?
    case RejectUser(p) => HoldOf(d, p).Clear?
    case Issue(p, _, _) => HoldOf(d, p).Passed?
    case StartRevocation(p, target) =>
      var hold := HoldOf(d, p);
      if hold.Marking? then hold.target == target && hold.todo == {}
      else hold.Clear? && (target.OfFamily? ==> !Active(d, target.family))
    case Commit(p) => PhaseOf(d, p).Issued? || PhaseOf(d, p).Swept?
    case _ => true
  }

  function AfterStatement(d: Database, a: Tokens.Action): Database {
    var next := d.(tokens := Tokens.Step(d.tokens, a));
    if a.Commit? then
      SetHold(next, a.p, Clear).(sessions := WithRevoked(d.sessions, Marked(HoldOf(d, a.p))))
    else if a.Rollback? then SetHold(next, a.p, Clear)
    else next
  }

  /** A session row another request has locked is waited for, which here changes nothing. */
  function Step(d: Database, m: Move): Database {
    match m
    case Login(token, family, user, expires, track) =>
      if family in d.tokens.chains || !Tokens.NewToken(d.tokens, token) then d
      else
        var next := d.(tokens := Tokens.Step(d.tokens, Tokens.Login(token, family, user, expires)));
        if track then next.(sessions := d.sessions[family := Session(user, false)], tracked := d.tracked + {family})
        else next
    case Statement(a) => if Allowed(d, a) then AfterStatement(d, a) else d
    case SeeSession(p) =>
      var phase := PhaseOf(d, p);
      if !phase.Claimed? || !HoldOf(d, p).Clear? then d
      else SetHold(d, p, if Active(d, phase.family) then Saw else Passed({}))
    case TouchSession(p) =>
      var phase := PhaseOf(d, p);
      if !phase.Claimed? || !HoldOf(d, p).Saw? then d
      else if phase.family !in d.sessions then SetHold(d, p, Passed({}))
      else if RowFree(d, p, phase.family) then SetHold(d, p, Passed({phase.family}))
      else d
    case PickSession(p, family) =>
      if PhaseOf(d, p).Idle? && HoldOf(d, p).Clear? && family in d.sessions
      then SetHold(d, p, Marking(Tokens.OfFamily(family), {family}, {}))
      else d
    case PickSessions(p, user) =>
      if PhaseOf(d, p).Idle? && HoldOf(d, p).Clear?
      then SetHold(d, p, Marking(Tokens.OfUser(user), set f | f in d.sessions && OpenFor(d, f, user), {}))
      else d
    case MarkSession(p, family) =>
      var hold := HoldOf(d, p);
      if !hold.Marking? || family !in hold.todo || !RowFree(d, p, family) then d
      else
        var marked := if Active(d, family) then hold.marked + {family} else hold.marked;
        SetHold(d, p, Marking(hold.target, hold.todo - {family}, marked))
    case SweepSession(family, cutoff) =>
      if Sweepable(d, family, cutoff)
      then d.(sessions := WithRevoked(d.sessions, {family}), swept := d.swept + {family})
      else d
    case PurgeSession(family) =>
      if family in d.sessions && d.sessions[family].revoked && Unlocked(d, family)
      then d.(sessions := d.sessions - {family})
      else d
  }

  predicate OpenFor(d: Database, family: Id, user: Id) {
    Active(d, family) && d.sessions[family].user == user
  }

  predicate Unlocked(d: Database, family: Id) {
    forall q :: q in d.holds ==> family !in Locked(d.holds[q])
  }

  /** The cleanup closes a session whose tokens have all run out before the cutoff. */
  predicate Sweepable(d: Database, family: Id, cutoff: Time) {
    && Active(d, family) && Unlocked(d, family) && Tokens.FamilyRows(d.tokens, family) != {}
    && forall t :: t in Tokens.FamilyRows(d.tokens, family) ==> d.tokens.rows[t].expires < cutoff
  }

  function Run(d: Database, moves: seq<Move>): Database
    decreases |moves|
  {
    if moves == [] then d else Run(Step(d, moves[0]), moves[1..])
  }

  function Empty(now: Time): Database {
    Database(Tokens.Empty(now), map[], map[], {}, {})
  }

  // ---- Every run is a run of the token machine ----------------------------------- //

  function Projected(d: Database, m: Move): seq<Tokens.Action> {
    match m
    case Login(token, family, user, expires, _) => [Tokens.Login(token, family, user, expires)]
    case Statement(a) => if Allowed(d, a) then [a] else []
    case _ => []
  }

  /** The token statements of a run, in order. */
  function Statements(d: Database, moves: seq<Move>): seq<Tokens.Action>
    decreases |moves|
  {
    if moves == [] then [] else Projected(d, moves[0]) + Statements(Step(d, moves[0]), moves[1..])
  }

  lemma StepProjects(d: Database, m: Move)
    ensures Step(d, m).tokens == Tokens.Run(d.tokens, Projected(d, m))
  {
    if Projected(d, m) != [] {
      var a := Projected(d, m)[0];
      assert Projected(d, m) == [a];
      Tokens.RunCons(d.tokens, a, []);
    }
  }

  /** Session rows only restrict what tokens do: whatever holds over all runs of the token machine holds here. */
  lemma {:induction false} RunProjects(d: Database, moves: seq<Move>)
    ensures Run(d, moves).tokens == Tokens.Run(d.tokens, Statements(d, moves))
    decreases |moves|
  {
    if moves != [] {
      var next := Step(d, moves[0]);
      StepProjects(d, moves[0]);
      RunProjects(next, moves[1..]);
      Tokens.RunAppend(d.tokens, Projected(d, moves[0]), Statements(next, moves[1..]));
    }
  }

  predicate ActsAs(m: Move, p: Id) {
    match m
    case Login(_, _, _, _, _) => false
    case SweepSession(_, _) => false
    case PurgeSession(_) => false
    case Statement(a) => Tokens.ActsAs(a, p)
    case _ => m.p == p
  }

  lemma {:induction false} OthersStatements(d: Database, moves: seq<Move>, p: Id)
    requires forall m :: m in moves ==> !ActsAs(m, p)
    ensures forall a :: a in Statements(d, moves) ==> !Tokens.ActsAs(a, p)
    decreases |moves|
  {
    if moves != [] {
      assert !ActsAs(moves[0], p);
      OthersStatements(Step(d, moves[0]), moves[1..], p);
    }
  }

  // ---- The invariant ------------------------------------------------------------------ //

  /** A family's tokens belong to the user of its session, and so does every rotation of one of them. */
  ghost predicate Owned(d: Database) {
    && (forall t :: t in d.tokens.rows && d.tokens.rows[t].family in d.sessions ==>
          d.tokens.rows[t].user == d.sessions[d.tokens.rows[t].family].user)
    && (forall p :: p in d.tokens.procs ==> OwnRotation(d, d.tokens.procs[p].phase))
  }

  ghost predicate OwnRotation(d: Database, phase: Tokens.Phase) {
    (phase.Ready? || phase.Claimed? || phase.Issued?) && phase.family in d.sessions ==>
      phase.user == d.sessions[phase.family].user
  }

  predicate Covers(target: Tokens.Target, family: Id, user: Id) {
    match target
    case OfFamily(f) => f == family
    case OfUser(u) => u == user
    case OfToken(_) => false
  }

  /** A revocation that holds the family's session has picked, and later written, its live token. */
  ghost predicate Caught(s: Tokens.System, proc: Tokens.Process, family: Id) {
    && (proc.phase.Sweeping? ==> Tokens.LiveTokens(s, family) <= proc.phase.targets)
    && (proc.phase.Swept? ==> Tokens.LiveTokens(s, family) <= proc.pending.Keys)
  }

  ghost predicate MarkOk(d: Database, p: Id, target: Tokens.Target, family: Id) {
    && Active(d, family) && Covers(target, family, d.sessions[family].user)
    && Caught(d.tokens, Tokens.ProcOf(d.tokens, p), family)
  }

  ghost predicate TodoOk(d: Database, target: Tokens.Target, family: Id) {
    family in d.tracked && (family in d.sessions ==> Covers(target, family, d.sessions[family].user))
  }

  /** The session a revocation is about is among its rows, unless it has been closed. */
  ghost predicate MarkedOrClosed(d: Database, family: Id, rows: set<Id>) {
    family in d.tracked && (Active(d, family) ==> family in rows)
  }

  /** A rotation about to bring in a successor keeps its session locked, as long as that is unrevoked. */
  ghost predicate HoldOk(d: Database, p: Id) {
    var phase := PhaseOf(d, p);
    match HoldOf(d, p)
    case Clear => !phase.Issued?
    case Saw => phase.Claimed?
    case Passed(locked) =>
      (phase.Claimed? || phase.Issued?) && (Active(d, phase.family) ==> phase.family in locked)
    case Marking(target, todo, marked) =>
      && (phase.Idle? || ((phase.Sweeping? || phase.Swept?) && todo == {}))
      && (forall f :: f in todo ==> TodoOk(d, target, f))
      && (target.OfFamily? ==> MarkedOrClosed(d, target.family, todo + marked))
      && forall f :: f in marked ==> MarkOk(d, p, target, f)
  }

  ghost predicate Exclusive(d: Database) {
    forall p, q :: p in d.holds && q in d.holds && p != q ==> Locked(d.holds[p]) !! Locked(d.holds[q])
  }

  /** A family whose session was closed by a request has no live token. */
  ghost predicate ClosedIsDead(d: Database, family: Id) {
    family in d.tracked && !Active(d, family) && family !in d.swept ==> Tokens.Dead(d.tokens, family)
  }

  ghost predicate Inv(d: Database) {
    && Tokens.Inv(d.tokens)
    && d.sessions.Keys <= d.tracked <= d.tokens.chains.Keys
    && Owned(d)
    && (forall p: Id :: HoldOk(d, p))
    && Exclusive(d)
    && (forall f: Id :: ClosedIsDead(d, f))
  }
  /** A request that does not act keeps its hold in order while the rows it looks at stay as they are. */
  lemma HoldCarries(d: Database, next: Database, q: Id)
    requires HoldOk(d, q) && HoldOf(next, q) == HoldOf(d, q)
    requires forall f :: f in d.tracked && f in next.sessions ==>
               f in d.sessions && next.sessions[f].user == d.sessions[f].user
    requires Tokens.ProcOf(next.tokens, q) == Tokens.ProcOf(d.tokens, q)
    requires forall f :: f in d.tracked && Active(next, f) ==> Active(d, f)
    requires HoldOf(d, q).Passed? && Active(next, PhaseOf(d, q).family) ==> Active(d, PhaseOf(d, q).family)
    requires d.tracked <= next.tracked
    requires forall f :: f in Marked(HoldOf(d, q)) ==>
               && Active(d, f) && Active(next, f) && f in d.tracked
               && Tokens.LiveTokens(next.tokens, f) <= Tokens.LiveTokens(d.tokens, f)
    ensures HoldOk(next, q)
  {
    forall f | f in Marked(HoldOf(d, q)) ensures MarkOk(next, q, HoldOf(d, q).target, f) {
      assert MarkOk(d, q, HoldOf(d, q).target, f);
    }
  }

  lemma MarkedIsActive(d: Database, p: Id, family: Id)
    requires Inv(d) && family in Marked(HoldOf(d, p))
    ensures MarkOk(d, p, HoldOf(d, p).target, family)
  {
    assert HoldOk(d, p);
  }

  lemma SetHoldKeepsInv(d: Database, p: Id, hold: Hold)
    requires Inv(d) && HoldOk(SetHold(d, p, hold), p)
    requires forall f :: f in Locked(hold) ==> f in Locked(HoldOf(d, p)) || RowFree(d, p, f)
    ensures Inv(SetHold(d, p, hold))
  {
    var next := SetHold(d, p, hold);
    forall q: Id | q != p ensures HoldOk(next, q) {
      HoldKept(d, next, q);
    }
    forall f: Id ensures ClosedIsDead(next, f) {
      assert ClosedIsDead(d, f);
    }
  }

  lemma HoldKept(d: Database, next: Database, q: Id)
    requires Inv(d) && HoldOf(next, q) == HoldOf(d, q)
    requires next.tokens == d.tokens && next.sessions == d.sessions && next.tracked == d.tracked
    ensures HoldOk(next, q)
  {
    forall f | f in Marked(HoldOf(d, q)) ensures Active(d, f) {
      MarkedIsActive(d, q, f);
    }
    HoldCarries(d, next, q);
  }

  predicate HoldMove(m: Move) {
    m.SeeSession? || m.TouchSession? || m.PickSession? || m.PickSessions? || m.MarkSession?
  }

  lemma TodoOkAfterMove(d: Database, m: Move)
    requires Inv(d) && HoldMove(m)
    ensures var hold := HoldOf(Step(d, m), m.p);
            hold.Marking? ==> forall f :: f in hold.todo ==> TodoOk(Step(d, m), hold.target, f)
  {
    assert HoldOk(d, m.p);
    if HoldOf(d, m.p).Marking? {
      var target := HoldOf(d, m.p).target;
      assert forall f :: f in HoldOf(d, m.p).todo ==> TodoOk(d, target, f);
      assert forall f :: TodoOk(d, target, f) ==> TodoOk(Step(d, m), target, f);
    }
  }

  lemma MarkOkAfterMove(d: Database, m: Move, family: Id)
    requires Inv(d) && HoldMove(m) && family in Marked(HoldOf(Step(d, m), m.p))
    ensures MarkOk(Step(d, m), m.p, HoldOf(Step(d, m), m.p).target, family)
  {
    assert HoldOk(d, m.p);
    if family in Marked(HoldOf(d, m.p)) {
      MarkedIsActive(d, m.p, family);
    } else {
      assert TodoOk(d, HoldOf(d, m.p).target, family);
    }
  }

  lemma HoldMoveKeepsInv(d: Database, m: Move)
    requires Inv(d) && HoldMove(m)
    ensures Inv(Step(d, m))
  {
    var next := Step(d, m);
    assert HoldOk(d, m.p);
    if next != d {
      assert next == SetHold(d, m.p, HoldOf(next, m.p));
      forall f | f in Marked(HoldOf(next, m.p)) ensures MarkOk(next, m.p, HoldOf(next, m.p).target, f) {
        MarkOkAfterMove(d, m, f);
      }
      TodoOkAfterMove(d, m);
      SetHoldKeepsInv(d, m.p, HoldOf(next, m.p));
    }
  }
  /** The cleanup worker touches only session rows nobody has locked. */
  lemma CleanupKeepsInv(d: Database, m: Move)
    requires Inv(d) && (m.SweepSession? || m.PurgeSession?)
    ensures Inv(Step(d, m))
  {
    var next := Step(d, m);
    if next != d {
      forall q: Id ensures HoldOk(next, q) {
        CleanupKeepsHold(d, m, q);
      }
      forall f: Id ensures ClosedIsDead(next, f) {
        assert ClosedIsDead(d, f);
      }
      CleanupKeepsOwned(d, m);
    }
  }

  lemma CleanupKeepsOwned(d: Database, m: Move)
    requires Inv(d) && (m.SweepSession? || m.PurgeSession?)
    ensures Owned(Step(d, m))
  {
    assert forall p :: p in d.tokens.procs ==> OwnRotation(d, d.tokens.procs[p].phase);
  }

  lemma CleanupKeepsHold(d: Database, m: Move, q: Id)
    requires Inv(d) && (m.SweepSession? || m.PurgeSession?) && Step(d, m) != d
    ensures HoldOk(Step(d, m), q)
  {
    assert HoldOk(d, q);
    CleanupKeepsMarks(d, m, q);
    HoldCarries(d, Step(d, m), q);
  }

  lemma CleanupKeepsMarks(d: Database, m: Move, q: Id)
    requires Inv(d) && (m.SweepSession? || m.PurgeSession?) && Step(d, m) != d
    ensures forall f :: f in Marked(HoldOf(d, q)) ==> Active(d, f) && Active(Step(d, m), f)
  {
    forall f | f in Marked(HoldOf(d, q)) ensures Active(d, f) && Active(Step(d, m), f) {
      MarkedIsActive(d, q, f);
      assert q in d.holds && f in Locked(d.holds[q]);
      assert f != m.family;
    }
  }

  lemma LoginKeepsInv(d: Database, m: Move)
    requires Inv(d) && m.Login?
    ensures Inv(Step(d, m))
  {
    var next, a := Step(d, m), Tokens.Login(m.token, m.family, m.user, m.expires);
    if next != d {
      Tokens.StepKeepsInv(d.tokens, a);
      assert next.tokens == Tokens.Step(d.tokens, a);
      LoginKeepsOwned(d, m);
      forall q: Id ensures HoldOk(next, q) {
        LoginKeepsHold(d, m, q);
      }
      forall f: Id ensures ClosedIsDead(next, f) {
        assert ClosedIsDead(d, f);
        if Tokens.Dead(d.tokens, f) {
          Tokens.StepKeepsDead(d.tokens, a, f);
        }
      }
    }
  }

  lemma LoginKeepsOwned(d: Database, m: Move)
    requires Inv(d) && m.Login? && Step(d, m) != d
    ensures Owned(Step(d, m))
  {
    var next := Step(d, m);
    forall t | t in d.tokens.rows ensures d.tokens.rows[t].family != m.family {
      assert Tokens.OnChain(d.tokens, t);
    }
    forall p | p in next.tokens.procs ensures OwnRotation(next, next.tokens.procs[p].phase) {
      assert OwnRotation(d, d.tokens.procs[p].phase);
      RotationHasChain(d.tokens, p);
    }
  }

  lemma RotationHasChain(s: Tokens.System, p: Id)
    requires Tokens.Inv(s)
    ensures var phase := Tokens.ProcOf(s, p).phase;
            (phase.Ready? || phase.Claimed? || phase.Issued?) ==> phase.family in s.chains
  {
    if p in s.procs {
      assert Tokens.ProcOk(s, p);
      if s.procs[p].phase.Claimed? || s.procs[p].phase.Issued? {
        Tokens.ClaimIsLast(s, p);
      }
    }
  }

  lemma LoginKeepsHold(d: Database, m: Move, q: Id)
    requires Inv(d) && m.Login? && Step(d, m) != d
    ensures HoldOk(Step(d, m), q)
  {
    var next := Step(d, m);
    assert HoldOk(d, q);
    RotationHasChain(d.tokens, q);
    forall f | f in Marked(HoldOf(d, q))
      ensures Active(d, f) && Active(next, f) && Tokens.LiveTokens(next.tokens, f) <= Tokens.LiveTokens(d.tokens, f)
    {
      MarkedIsActive(d, q, f);
    }
    HoldCarries(d, next, q);
  }

  // ---- Token statements ------------------------------------------------------------------ //

  /** While a revocation holds a session row, no rotation of that family has issued a successor. */
  lemma NoSuccessorUnderMark(d: Database, p: Id, q: Id, family: Id)
    requires Inv(d) && family in Marked(HoldOf(d, q))
    ensures !(PhaseOf(d, p).Issued? && PhaseOf(d, p).family == family)
  {
    MarkedIsActive(d, q, family);
    assert HoldOk(d, p) && HoldOk(d, q);
    assert q in d.holds && family in Locked(d.holds[q]);
    assert p in d.holds && p != q ==> family !in Locked(d.holds[p]);
  }

  /** Nobody brings a live token into a family whose session is marked. */
  lemma MarkedGrowsNoToken(d: Database, a: Tokens.Action, q: Id, family: Id)
    requires Inv(d) && Allowed(d, a) && family in Marked(HoldOf(d, q))
    ensures Tokens.LiveTokens(Tokens.Step(d.tokens, a), family) <= Tokens.LiveTokens(d.tokens, family)
  {
    MarkedIsActive(d, q, family);
    if a.Commit? {
      NoSuccessorUnderMark(d, a.p, q, family);
    }
    if !(Tokens.LiveTokens(Tokens.Step(d.tokens, a), family) <= Tokens.LiveTokens(d.tokens, family)) {
      Tokens.NewLiveTokens(d.tokens, a, family);
    }
  }

  /** What the requests that do not act see of a statement. */
  lemma StatementKeepsOthers(d: Database, a: Tokens.Action, q: Id)
    requires Inv(d) && Allowed(d, a) && !Tokens.ActsAs(a, q)
    ensures HoldOk(Step(d, Statement(a)), q)
  {
    var next := Step(d, Statement(a));
    assert HoldOk(d, q);
    Tokens.OthersStand(d.tokens, a, q);
    forall f | f in Marked(HoldOf(d, q))
      ensures Active(d, f) && Active(next, f) && Tokens.LiveTokens(next.tokens, f) <= Tokens.LiveTokens(d.tokens, f)
    {
      MarkedIsActive(d, q, f);
      MarkedGrowsNoToken(d, a, q, f);
      assert q in d.holds && f in Locked(d.holds[q]);
      if a.Commit? && a.p in d.holds {
        assert f !in Locked(d.holds[a.p]);
      }
    }
    HoldCarries(d, next, q);
  }
  predicate Ends(a: Tokens.Action) {
    a.Commit? || a.Rollback?
  }

  /** A statement that neither commits nor rolls back leaves the request that runs it in order. */
  lemma StatementKeepsOwn(d: Database, a: Tokens.Action, p: Id)
    requires Inv(d) && Allowed(d, a) && !Ends(a) && Tokens.ActsAs(a, p)
    ensures HoldOk(Step(d, Statement(a)), p)
  {
    assert HoldOk(d, p);
    if HoldOf(d, p).Marking? {
      StatementKeepsOwnMarks(d, a, p);
    }
  }

  lemma StatementKeepsOwnMarks(d: Database, a: Tokens.Action, p: Id)
    requires Inv(d) && Allowed(d, a) && !Ends(a) && Tokens.ActsAs(a, p) && HoldOf(d, p).Marking?
    ensures HoldOk(Step(d, Statement(a)), p)
  {
    var next, hold := Step(d, Statement(a)), HoldOf(d, p);
    assert HoldOk(d, p);
    assert forall f :: TodoOk(d, hold.target, f) ==> TodoOk(next, hold.target, f);
    forall f | f in hold.marked ensures MarkOk(next, p, hold.target, f) {
      MarkedIsActive(d, p, f);
      if a.StartRevocation? {
        PickCatches(d, f, hold.target);
      } else if a.FinishRevocation? {
        WriteCatches(d, p, f);
      }
    }
  }

  /** The rows a revocation picks hold every live token of a session it marked. */
  lemma PickCatches(d: Database, family: Id, target: Tokens.Target)
    requires Inv(d) && Active(d, family) && Covers(target, family, d.sessions[family].user)
    ensures Tokens.LiveTokens(d.tokens, family) <= Tokens.Matching(d.tokens.rows, target)
  {
  }

  lemma WriteCatches(d: Database, p: Id, family: Id)
    requires Inv(d) && family in Marked(HoldOf(d, p))
    ensures Caught(Tokens.Step(d.tokens, Tokens.FinishRevocation(p)),
                   Tokens.ProcOf(Tokens.Step(d.tokens, Tokens.FinishRevocation(p)), p), family)
  {
    MarkedIsActive(d, p, family);
  }

  lemma StatementKeepsOwned(d: Database, a: Tokens.Action)
    requires Inv(d) && Allowed(d, a)
    ensures Owned(Step(d, Statement(a)))
  {
    var next := Step(d, Statement(a));
    forall t | t in next.tokens.rows && next.tokens.rows[t].family in next.sessions
      ensures next.tokens.rows[t].user == next.sessions[next.tokens.rows[t].family].user
    {
      StatementKeepsOwner(d, a, t);
    }
    forall p | p in next.tokens.procs ensures OwnRotation(next, next.tokens.procs[p].phase) {
      RotationKeepsOwner(d, a, p);
    }
  }

  lemma StatementKeepsOwner(d: Database, a: Tokens.Action, t: Id)
    requires Inv(d) && Allowed(d, a) && t in Tokens.Step(d.tokens, a).rows
    ensures var row := Tokens.Step(d.tokens, a).rows[t];
            row.family in d.sessions ==> row.user == d.sessions[row.family].user
  {
    Tokens.RowsOnlyAge(d.tokens, a, t);
    if t !in d.tokens.rows {
      Tokens.OnlyCommitsWrite(d.tokens, a);
      assert a.Commit?;
      assert Tokens.ProcOk(d.tokens, a.p) && OwnRotation(d, d.tokens.procs[a.p].phase);
    }
  }

  lemma RotationKeepsOwner(d: Database, a: Tokens.Action, p: Id)
    requires Inv(d) && Allowed(d, a) && p in Tokens.Step(d.tokens, a).procs
    ensures OwnRotation(d, Tokens.Step(d.tokens, a).procs[p].phase)
  {
    assert OwnRotation(d, PhaseOf(d, p)) by {
      assert p in d.tokens.procs ==> OwnRotation(d, d.tokens.procs[p].phase);
    }
    if !Tokens.ActsAs(a, p) {
      Tokens.OthersStand(d.tokens, a, p);
    }
  }

  /** A commit closes the sessions it marked, and their families are dead by then. */
  lemma CommitCloses(d: Database, p: Id, family: Id)
    requires Inv(d) && PhaseOf(d, p).Swept? && family in Marked(HoldOf(d, p))
    ensures var next := Step(d, Statement(Tokens.Commit(p)));
            && family in next.sessions && next.sessions[family].revoked
            && Tokens.Dead(next.tokens, family)
  {
    MarkedIsActive(d, p, family);
    Tokens.SweptLeaves(d.tokens, p, family);
    Tokens.ChainsGrow(d.tokens, Tokens.Commit(p), family);
  }

  lemma StatementKeepsClosed(d: Database, a: Tokens.Action, family: Id)
    requires Inv(d) && Allowed(d, a)
    ensures ClosedIsDead(Step(d, Statement(a)), family)
  {
    assert ClosedIsDead(d, family);
    if Tokens.Dead(d.tokens, family) {
      Tokens.StepKeepsDead(d.tokens, a, family);
    } else if a.Commit? && family in Marked(HoldOf(d, a.p)) {
      assert HoldOk(d, a.p);
      CommitCloses(d, a.p, family);
    }
  }

  lemma StatementKeepsInv(d: Database, a: Tokens.Action)
    requires Inv(d)
    ensures Inv(Step(d, Statement(a)))
  {
    if Allowed(d, a) {
      var next := Step(d, Statement(a));
      Tokens.StepKeepsInv(d.tokens, a);
      StatementKeepsOwned(d, a);
      forall q: Id ensures HoldOk(next, q) {
        StatementKeepsHold(d, a, q);
      }
      forall f: Id ensures ClosedIsDead(next, f) {
        StatementKeepsClosed(d, a, f);
      }
      assert forall f :: f in d.tokens.chains ==> f in next.tokens.chains;
    }
  }

  lemma StatementKeepsHold(d: Database, a: Tokens.Action, q: Id)
    requires Inv(d) && Allowed(d, a)
    ensures HoldOk(Step(d, Statement(a)), q)
  {
    if !Tokens.ActsAs(a, q) {
      StatementKeepsOthers(d, a, q);
    } else if !Ends(a) {
      StatementKeepsOwn(d, a, q);
    } else {
      assert HoldOk(d, q);
      RotationHasChain(d.tokens, q);
    }
  }

  lemma StepKeepsInv(d: Database, m: Move)
    requires Inv(d)
    ensures Inv(Step(d, m))
  {
    match m
    case Login(_, _, _, _, _) => LoginKeepsInv(d, m);
    case Statement(a) => StatementKeepsInv(d, a);
    case SweepSession(_, _) => CleanupKeepsInv(d, m);
    case PurgeSession(_) => CleanupKeepsInv(d, m);
    case _ => HoldMoveKeepsInv(d, m);
  }

  lemma {:induction false} RunKeepsInv(d: Database, moves: seq<Move>)
    requires Inv(d)
    ensures Inv(Run(d, moves))
    decreases |moves|
  {
    if moves != [] {
      StepKeepsInv(d, moves[0]);
      RunKeepsInv(Step(d, moves[0]), moves[1..]);
    }
  }
  // ---- Which sessions close -------------------------------------------------------------------- //

  /** What a revocation is out to mark: one family's session, or the unrevoked ones of one user. */
  lemma PicksWhat(d: Database, p: Id, family: Id, user: Id)
    requires PhaseOf(d, p).Idle? && HoldOf(d, p).Clear?
    ensures family in d.sessions ==>
              HoldOf(Step(d, PickSession(p, family)), p) == Marking(Tokens.OfFamily(family), {family}, {})
    ensures var hold := HoldOf(Step(d, PickSessions(p, user)), p);
            && hold == Marking(Tokens.OfUser(user), hold.todo, {})
            && forall f :: f in hold.todo <==>
                 f in d.sessions && !d.sessions[f].revoked && d.sessions[f].user == user
  {
  }

  /**
   An open session is closed when a revocation commits that has marked it and
   was asked to, or by the cleanup once every token of its family ran out.
  */
  lemma SessionClosesWhen(d: Database, m: Move, family: Id)
    requires Inv(d) && family in d.sessions && !d.sessions[family].revoked
    ensures var after := Step(d, m).sessions;
            && family in after && after[family].user == d.sessions[family].user
            && (after[family].revoked <==> ClosedByCommit(d, m, family) || ClosedByCleanup(d, m, family))
  {
    if m.Statement? && m.action.Commit? {
      assert HoldOk(d, m.action.p);
      if family in Marked(HoldOf(d, m.action.p)) {
        MarkedIsActive(d, m.action.p, family);
      }
    } else if m.SweepSession? {
      SweepableWhen(d, family, m.cutoff);
    }
  }

  lemma SweepableWhen(d: Database, family: Id, cutoff: Time)
    requires Active(d, family)
    ensures Sweepable(d, family, cutoff) <==> ClosedByCleanup(d, SweepSession(family, cutoff), family)
  {
    var rows := Tokens.FamilyRows(d.tokens, family);
    if rows != {} {
      var t :| t in rows;
    }
    if t :| t in d.tokens.rows && d.tokens.rows[t].family == family {
      assert t in rows;
    }
    assert forall t :: t in rows <==> t in d.tokens.rows && d.tokens.rows[t].family == family;
  }

  predicate ClosedByCommit(d: Database, m: Move, family: Id) {
    && m.Statement? && m.action.Commit? && PhaseOf(d, m.action.p).Swept?
    && HoldOf(d, m.action.p).Marking? && family in HoldOf(d, m.action.p).marked
    && family in d.sessions
    && (HoldOf(d, m.action.p).target == Tokens.OfFamily(family)
        || HoldOf(d, m.action.p).target == Tokens.OfUser(d.sessions[family].user))
  }

  ghost predicate ClosedByCleanup(d: Database, m: Move, family: Id) {
    && m.SweepSession? && m.family == family
    && (forall q :: q in d.holds ==> family !in Locked(d.holds[q]))
    && (exists t :: t in d.tokens.rows && d.tokens.rows[t].family == family)
    && (forall t :: t in d.tokens.rows && d.tokens.rows[t].family == family ==> d.tokens.rows[t].expires < m.cutoff)
  }

  /** The tokens of one family are never picked before its session is marked, unless it has none that is open. */
  lemma SessionIsMarkedFirst(now: Time, moves: seq<Move>, p: Id, family: Id)
    requires var d := Run(Empty(now), moves);
             && PhaseOf(d, p).Idle?
             && PhaseOf(Step(d, Statement(Tokens.StartRevocation(p, Tokens.OfFamily(family)))), p).Sweeping?
    ensures var d := Run(Empty(now), moves);
            family in d.sessions && !d.sessions[family].revoked ==>
              HoldOf(d, p).Marking? && family in HoldOf(d, p).marked
  {
    RunKeepsInv(Empty(now), moves);
    assert HoldOk(Run(Empty(now), moves), p);
  }

  /** A row goes only once it is revoked and nobody has it locked, and a revoked one is never opened again. */
  lemma SessionGoesWhen(d: Database, m: Move, family: Id)
    requires Inv(d) && family in d.sessions
    ensures family !in Step(d, m).sessions ==>
              m == PurgeSession(family) && d.sessions[family].revoked && Unlocked(d, family)
    ensures family in Step(d, m).sessions && d.sessions[family].revoked ==> Step(d, m).sessions[family].revoked
  {
  }

  // ---- Session revocations are final --------------------------------------------------------- //

  lemma StepKeepsDead(d: Database, m: Move, family: Id)
    requires Inv(d) && Tokens.Dead(d.tokens, family)
    ensures Tokens.Dead(Step(d, m).tokens, family)
  {
    StepProjects(d, m);
    Tokens.DeadStaysDead(d.tokens, Projected(d, m), family);
  }

  lemma RunKeepsDead(d: Database, moves: seq<Move>, family: Id)
    requires Inv(d) && Tokens.Dead(d.tokens, family)
    ensures Tokens.Dead(Run(d, moves).tokens, family)
  {
    RunProjects(d, moves);
    Tokens.DeadStaysDead(d.tokens, Statements(d, moves), family);
  }

  /**
   Over any run, a session that is revoked in the table, other than by the
   cleanup of long expired ones, has no live token in its family and never
   gets one again.
  */
  lemma RevokedSessionIsDead(now: Time, moves: seq<Move>, family: Id, future: seq<Move>)
    requires var d := Run(Empty(now), moves);
             family in d.sessions && d.sessions[family].revoked && family !in d.swept
    ensures Tokens.Dead(Run(Run(Empty(now), moves), future).tokens, family)
  {
    var d := Run(Empty(now), moves);
    RunKeepsInv(Empty(now), moves);
    assert ClosedIsDead(d, family);
    RunKeepsDead(d, future, family);
  }

  /** A revocation of the session that is neither finished nor rolled back, or the family is dead. */
  ghost predicate UnderRevocation(d: Database, p: Id, family: Id) {
    || Tokens.Dead(d.tokens, family)
    || family in d.swept
    || (HoldOf(d, p).Marking? && (family in HoldOf(d, p).todo || family in HoldOf(d, p).marked))
  }

  /** A revocation lets go of a session only at its end, or because it finds it closed. */
  lemma MarkingGoesOn(d: Database, m: Move, p: Id, family: Id)
    requires HoldOf(d, p).Marking? && (family in HoldOf(d, p).todo || family in HoldOf(d, p).marked)
    requires m != Statement(Tokens.Rollback(p)) && m != Statement(Tokens.Commit(p))
    ensures || (m == MarkSession(p, family) && !Active(d, family))
            || (var hold := HoldOf(Step(d, m), p);
                hold.Marking? && (family in hold.todo || family in hold.marked))
  {
  }

  lemma CommitEndsMarking(d: Database, p: Id, family: Id)
    requires Inv(d) && HoldOf(d, p).Marking? && (family in HoldOf(d, p).todo || family in HoldOf(d, p).marked)
    ensures UnderRevocation(Step(d, Statement(Tokens.Commit(p))), p, family)
  {
    assert HoldOk(d, p);
    if PhaseOf(d, p).Swept? {
      CommitCloses(d, p, family);
    }
  }

  lemma StepKeepsUnderRevocation(d: Database, m: Move, p: Id, family: Id)
    requires Inv(d) && UnderRevocation(d, p, family) && m != Statement(Tokens.Rollback(p))
    ensures UnderRevocation(Step(d, m), p, family)
  {
    if Tokens.Dead(d.tokens, family) {
      StepKeepsDead(d, m, family);
    } else if family in d.swept {
      SweptGrows(d, m);
    } else if m == Statement(Tokens.Commit(p)) {
      CommitEndsMarking(d, p, family);
    } else {
      PickedIsActive(d, p, family);
      MarkingGoesOn(d, m, p, family);
    }
  }

  lemma SweptGrows(d: Database, m: Move)
    ensures d.swept <= Step(d, m).swept
  {
  }

  lemma PickedIsActive(d: Database, p: Id, family: Id)
    requires Inv(d) && HoldOf(d, p).Marking? && (family in HoldOf(d, p).todo || family in HoldOf(d, p).marked)
    requires !Tokens.Dead(d.tokens, family) && family !in d.swept
    ensures Active(d, family)
  {
    assert HoldOk(d, p) && ClosedIsDead(d, family);
    assert family in HoldOf(d, p).todo ==> TodoOk(d, HoldOf(d, p).target, family);
  }

  lemma {:induction false} RunKeepsUnderRevocation(d: Database, moves: seq<Move>, p: Id, family: Id)
    requires Inv(d) && UnderRevocation(d, p, family) && Statement(Tokens.Rollback(p)) !in moves
    ensures UnderRevocation(Run(d, moves), p, family)
    decreases |moves|
  {
    if moves != [] {
      assert moves[0] != Statement(Tokens.Rollback(p));
      StepKeepsInv(d, moves[0]);
      StepKeepsUnderRevocation(d, moves[0], p, family);
      RunKeepsUnderRevocation(Step(d, moves[0]), moves[1..], p, family);
    }
  }

  /** The request picks this family's session: by its id, or among all of its user's. */
  predicate Picks(d: Database, m: Move, family: Id) {
    && Active(d, family)
    && ((m.PickSession? && m.family == family) || (m.PickSessions? && m.user == d.sessions[family].user))
    && PhaseOf(d, m.p).Idle? && HoldOf(d, m.p).Clear?
  }

  /**
   A revocation of a session that is unrevoked when it is called ends the
   family, whatever rotations are in flight and however everything interleaves:
   unless the request is rolled back it is still at work, or the family is dead
   (or had run out, and the cleanup closed its session first).
  */
  lemma SessionRevocationEndsFamily(now: Time, moves: seq<Move>, m: Move, family: Id, between: seq<Move>)
    requires Picks(Run(Empty(now), moves), m, family)
    requires Statement(Tokens.Rollback(m.p)) !in between
    ensures UnderRevocation(Run(Step(Run(Empty(now), moves), m), between), m.p, family)
  {
    var d := Run(Empty(now), moves);
    RunKeepsInv(Empty(now), moves);
    StepKeepsInv(d, m);
    RunKeepsUnderRevocation(Step(d, m), between, m.p, family);
  }

  /** At its commit, the session is revoked and its family dead, for good. */
  lemma SessionRevocationIsFinal(now: Time, moves: seq<Move>, p: Id, family: Id, future: seq<Move>)
    requires var d := Run(Empty(now), moves); PhaseOf(d, p).Swept? && family in Marked(HoldOf(d, p))
    ensures var next := Step(Run(Empty(now), moves), Statement(Tokens.Commit(p)));
            && family in next.sessions && next.sessions[family].revoked
            && Tokens.Dead(Run(next, future).tokens, family)
  {
    var d := Run(Empty(now), moves);
    RunKeepsInv(Empty(now), moves);
    CommitCloses(d, p, family);
    StepKeepsInv(d, Statement(Tokens.Commit(p)));
    RunKeepsDead(Step(d, Statement(Tokens.Commit(p))), future, family);
  }

  /** The revocation p holds the session row and has picked its tokens; the rotation q has claimed one of them. */
  predicate Deadlocked(d: Database, p: Id, q: Id) {
    && PhaseOf(d, p).Sweeping? && PhaseOf(d, q).Claimed?
    && HoldOf(d, q).Saw? && PhaseOf(d, q).family in Marked(HoldOf(d, p))
  }

  /** Neither the rotation nor the revocation can take its next step. */
  predicate Waits(d: Database, p: Id, q: Id) {
    Step(d, TouchSession(q)) == d && Step(d, Statement(Tokens.FinishRevocation(p))) == d
  }

  lemma DeadlockWaits(d: Database, p: Id, q: Id)
    requires Inv(d) && Deadlocked(d, p, q)
    ensures Waits(d, p, q)
  {
    ClaimIsPicked(d, p, q);
    assert p in d.holds && PhaseOf(d, q).family in Locked(d.holds[p]);
  }

  lemma StepKeepsDeadlock(d: Database, m: Move, p: Id, q: Id)
    requires Inv(d) && Deadlocked(d, p, q)
    requires m != Statement(Tokens.Rollback(p)) && m != Statement(Tokens.Rollback(q))
    ensures Deadlocked(Step(d, m), p, q)
  {
    DeadlockWaits(d, p, q);
    if m.Statement? {
      if Allowed(d, m.action) {
        StatementKeepsSides(d, m.action, p, q);
      }
    } else {
      OtherMoveKeepsDeadlock(d, m, p, q);
    }
  }

  lemma OtherMoveKeepsDeadlock(d: Database, m: Move, p: Id, q: Id)
    requires Deadlocked(d, p, q) && Waits(d, p, q) && !m.Statement?
    ensures Deadlocked(Step(d, m), p, q)
  {
    if m.Login? {
      assert Step(d, m).tokens.procs == d.tokens.procs;
    }
  }

  lemma StatementKeepsSides(d: Database, a: Tokens.Action, p: Id, q: Id)
    requires Deadlocked(d, p, q) && Waits(d, p, q) && Allowed(d, a)
    requires a != Tokens.Rollback(p) && a != Tokens.Rollback(q)
    ensures Deadlocked(Step(d, Statement(a)), p, q)
  {
    var s, s' := d.tokens, Tokens.Step(d.tokens, a);
    if Tokens.ActsAs(a, p) {
      assert Tokens.ProcOf(s', p) == Tokens.ProcOf(s, p);
    } else {
      Tokens.OthersStand(s, a, p);
    }
    if Tokens.ActsAs(a, q) {
      assert Tokens.ProcOf(s', q) == Tokens.ProcOf(s, q);
    } else {
      Tokens.OthersStand(s, a, q);
    }
  }

  /** And whatever others do, they wait until the database rolls one of the two back. */
  lemma {:induction false} DeadlockLasts(d: Database, moves: seq<Move>, p: Id, q: Id)
    requires Inv(d) && Deadlocked(d, p, q)
    requires Statement(Tokens.Rollback(p)) !in moves && Statement(Tokens.Rollback(q)) !in moves
    ensures Deadlocked(Run(d, moves), p, q) && Waits(Run(d, moves), p, q)
    decreases |moves|
  {
    if moves == [] {
      DeadlockWaits(d, p, q);
    } else {
      assert moves[0] != Statement(Tokens.Rollback(p)) && moves[0] != Statement(Tokens.Rollback(q));
      StepKeepsInv(d, moves[0]);
      StepKeepsDeadlock(d, moves[0], p, q);
      DeadlockLasts(Step(d, moves[0]), moves[1..], p, q);
    }
  }

  lemma ClaimIsPicked(d: Database, p: Id, q: Id)
    requires Inv(d) && Deadlocked(d, p, q)
    ensures var phase := PhaseOf(d, q);
            && phase.family in d.sessions
            && phase.token in PhaseOf(d, p).targets && phase.token in d.tokens.procs[q].pending
  {
    var phase := PhaseOf(d, q);
    MarkedIsActive(d, p, phase.family);
    Tokens.ClaimIsLast(d.tokens, q);
    assert phase.token in Tokens.LiveTokens(d.tokens, phase.family);
  }

  /** If the revocation is the victim nothing of it is left, and the rotation goes on. */
  lemma RevocationGivesWay(d: Database, p: Id, q: Id)
    requires Inv(d) && Deadlocked(d, p, q)
    ensures var next := Step(d, Statement(Tokens.Rollback(p)));
            && next.sessions == d.sessions && next.tokens.rows == d.tokens.rows
            && HoldOf(Step(next, TouchSession(q)), q) == Passed({PhaseOf(d, q).family})
  {
    var family := PhaseOf(d, q).family;
    ClaimIsPicked(d, p, q);
    assert forall r :: r in d.holds && r != p ==> family !in Locked(d.holds[r]) by {
      assert p in d.holds && family in Locked(d.holds[p]);
    }
  }

  /** If the rotation is the victim its token is live again, and the revocation has picked it. */
  lemma RotationGivesWay(d: Database, p: Id, q: Id)
    requires Inv(d) && Deadlocked(d, p, q)
    ensures var next := Step(d, Statement(Tokens.Rollback(q)));
            && Tokens.Redeemable(next.tokens, PhaseOf(d, q).family) == {PhaseOf(d, q).token}
            && PhaseOf(next, p) == PhaseOf(d, p) && PhaseOf(d, q).token in PhaseOf(d, p).targets
  {
    ClaimIsPicked(d, p, q);
    Tokens.ClaimGivenBack(d.tokens, q);
    Tokens.OthersStand(d.tokens, Tokens.Rollback(q), p);
  }
  // ---- Revocations of tokens alone --------------------------------------------------------------- //

  function Picked(d: Database, p: Id, target: Tokens.Target): Database {
    Step(d, Statement(Tokens.StartRevocation(p, target)))
  }

  function Finished(d: Database, p: Id): Database {
    Step(Step(d, Statement(Tokens.FinishRevocation(p))), Statement(Tokens.Commit(p)))
  }

  /** A revocation that has marked no session runs as in the token machine. */
  lemma TokensAlone(d: Database, p: Id, target: Tokens.Target, between: seq<Move>)
    requires Inv(d) && PhaseOf(d, p).Idle? && HoldOf(d, p).Clear? && Allowed(d, Tokens.StartRevocation(p, target))
    requires forall m :: m in between ==> !ActsAs(m, p)
    ensures var before := Run(Picked(d, p, target), between);
            && before.tokens == Tokens.Run(Tokens.Step(d.tokens, Tokens.StartRevocation(p, target)),
                                           Statements(Picked(d, p, target), between))
            && PhaseOf(before, p) == Tokens.Sweeping(Tokens.Matching(d.tokens.rows, target))
            && (forall a :: a in Statements(Picked(d, p, target), between) ==> !Tokens.ActsAs(a, p))
            && (Tokens.Free(before.tokens, p, Tokens.Matching(d.tokens.rows, target)) ==>
                  Finished(before, p).tokens
                  == Tokens.Step(Tokens.Step(before.tokens, Tokens.FinishRevocation(p)), Tokens.Commit(p)))
  {
    var picked := Picked(d, p, target);
    RunProjects(picked, between);
    OthersStatements(picked, between, p);
    Tokens.OthersStandOver(picked.tokens, Statements(picked, between), p);
  }

  /**
   A revocation that marks no session - of a family without an unrevoked one,
   or of all tokens of a user - ends a family it covers if and only if no
   rotation of that family commits while it runs, or it was dead by then anyway.
  */
  lemma TokenRevocationEndsFamily(d: Database, p: Id, target: Tokens.Target, family: Id, between: seq<Move>)
    requires Inv(d) && PhaseOf(d, p).Idle? && HoldOf(d, p).Clear? && Allowed(d, Tokens.StartRevocation(p, target))
    requires family in d.tokens.chains
    requires Tokens.FamilyRows(d.tokens, family) <= Tokens.Matching(d.tokens.rows, target)
    requires forall m :: m in between ==> !ActsAs(m, p)
    requires Tokens.Free(Run(Picked(d, p, target), between).tokens, p, Tokens.Matching(d.tokens.rows, target))
    ensures var before := Run(Picked(d, p, target), between);
            && family in before.tokens.chains
            && (Tokens.Dead(Finished(before, p).tokens, family) <==>
                Tokens.Dead(before.tokens, family) || before.tokens.chains[family] == d.tokens.chains[family])
  {
    TokensAlone(d, p, target, between);
    Tokens.RevocationEndsFamily(d.tokens, p, target, family, Statements(Picked(d, p, target), between));
  }

  /**
   A logout marks the presented token and no other, and no session.  It ends
   the family if and only if that token is the family's live one when the
   logout writes it, or the family was dead by then anyway.
  */
  lemma LogoutEndsFamily(d: Database, p: Id, token: Id, between: seq<Move>)
    requires Inv(d) && PhaseOf(d, p).Idle? && HoldOf(d, p).Clear? && token in d.tokens.rows
    requires forall m :: m in between ==> !ActsAs(m, p)
    requires Tokens.Free(Run(Picked(d, p, Tokens.OfToken(token)), between).tokens, p, {token})
    ensures var (before, family) := (Run(Picked(d, p, Tokens.OfToken(token)), between), d.tokens.rows[token].family);
            && family in before.tokens.chains
            && (Tokens.Dead(Finished(before, p).tokens, family) <==>
                Tokens.Dead(before.tokens, family) || Tokens.LiveTokens(before.tokens, family) == {token})
  {
    TokensAlone(d, p, Tokens.OfToken(token), between);
    assert Tokens.Matching(d.tokens.rows, Tokens.OfToken(token)) == {token};
    Tokens.LogoutEndsFamily(d.tokens, p, token, Statements(Picked(d, p, Tokens.OfToken(token)), between));
  }
  /** A whole rotation by q. */
  function Rotation(q: Id, token: Id, successor: Id, expires: Time): seq<Move> {
    [Statement(Tokens.Read(q, token)), Statement(Tokens.Claim(q)), SeeSession(q), TouchSession(q),
     Statement(Tokens.Issue(q, successor, expires)), Statement(Tokens.Commit(q))]
  }

  /** The token can be exchanged by q right now: nobody has its row or its session's. */
  predicate Exchangeable(d: Database, q: Id, token: Id) {
    && PhaseOf(d, q).Idle? && HoldOf(d, q).Clear?
    && token in d.tokens.rows && d.tokens.rows[token].Live() && d.tokens.now <= d.tokens.rows[token].expires
    && Tokens.Free(d.tokens, q, {token}) && RowFree(d, q, d.tokens.rows[token].family)
  }

  lemma ReadAndClaim(d: Database, q: Id, token: Id)
    requires Exchangeable(d, q, token)
    ensures var next := Step(Step(d, Statement(Tokens.Read(q, token))), Statement(Tokens.Claim(q)));
            && next.tokens == Tokens.Step(Tokens.Step(d.tokens, Tokens.Read(q, token)), Tokens.Claim(q))
            && next.sessions == d.sessions && next.holds == d.holds
            && PhaseOf(next, q) == Tokens.Claimed(token, d.tokens.rows[token].family, d.tokens.rows[token].user)
  {
  }

  lemma SeeAndTouch(d: Database, q: Id)
    requires PhaseOf(d, q).Claimed? && HoldOf(d, q).Clear? && RowFree(d, q, PhaseOf(d, q).family)
    ensures var next := Step(Step(d, SeeSession(q)), TouchSession(q));
            next.tokens == d.tokens && HoldOf(next, q).Passed?
  {
  }

  lemma IssueAndCommit(d: Database, q: Id, successor: Id, expires: Time)
    requires PhaseOf(d, q).Claimed? && HoldOf(d, q).Passed? && Tokens.NewToken(d.tokens, successor)
    ensures Step(Step(d, Statement(Tokens.Issue(q, successor, expires))), Statement(Tokens.Commit(q))).tokens
            == Tokens.Step(Tokens.Step(d.tokens, Tokens.Issue(q, successor, expires)), Tokens.Commit(q))
  {
  }

  lemma RotationRuns(d: Database, q: Id, token: Id, successor: Id, expires: Time)
    ensures Run(d, Rotation(q, token, successor, expires))
            == (var d1 := Step(Step(d, Statement(Tokens.Read(q, token))), Statement(Tokens.Claim(q)));
                var d2 := Step(Step(d1, SeeSession(q)), TouchSession(q));
                Step(Step(d2, Statement(Tokens.Issue(q, successor, expires))), Statement(Tokens.Commit(q))))
  {
    var d1 := Step(Step(d, Statement(Tokens.Read(q, token))), Statement(Tokens.Claim(q)));
    var d2 := Step(Step(d1, SeeSession(q)), TouchSession(q));
    var last := [Statement(Tokens.Issue(q, successor, expires)), Statement(Tokens.Commit(q))];
    var middle := [SeeSession(q), TouchSession(q)];
    RunTwo(d, Statement(Tokens.Read(q, token)), Statement(Tokens.Claim(q)), middle + last);
    RunTwo(d1, SeeSession(q), TouchSession(q), last);
    RunTwo(d2, last[0], last[1], []);
    assert Rotation(q, token, successor, expires)
        == [Statement(Tokens.Read(q, token)), Statement(Tokens.Claim(q))] + (middle + last);
    assert last == [last[0], last[1]] + [];
  }

  lemma RunTwo(d: Database, a: Move, b: Move, rest: seq<Move>)
    ensures Run(d, [a, b] + rest) == Run(Step(Step(d, a), b), rest)
  {
    assert [a, b] + rest == [a] + ([b] + rest);
    RunCons(d, a, [b] + rest);
    RunCons(Step(d, a), b, rest);
  }

  lemma RotationTokens(d: Database, q: Id, token: Id, successor: Id, expires: Time)
    requires Exchangeable(d, q, token) && Tokens.NewToken(d.tokens, successor)
    ensures Run(d, Rotation(q, token, successor, expires)).tokens
            == Tokens.WholeRotation(d.tokens, q, token, successor, expires)
  {
    RotationRuns(d, q, token, successor, expires);
    ReadAndClaim(d, q, token);
    var d1 := Step(Step(d, Statement(Tokens.Read(q, token))), Statement(Tokens.Claim(q)));
    SeeAndTouch(d1, q);
    var d2 := Step(Step(d1, SeeSession(q)), TouchSession(q));
    assert Tokens.NewToken(d2.tokens, successor);
    IssueAndCommit(d2, q, successor, expires);
  }

  lemma RotationFrees(d: Database, p: Id, q: Id, token: Id, successor: Id, expires: Time, targets: set<Id>)
    requires Inv(d) && Exchangeable(d, q, token) && Tokens.NewToken(d.tokens, successor)
    requires p != q && Tokens.Free(d.tokens, p, targets)
    ensures Tokens.Free(Run(d, Rotation(q, token, successor, expires)).tokens, p, targets)
  {
    var end := Run(d, Rotation(q, token, successor, expires)).tokens;
    RotationTokens(d, q, token, successor, expires);
    Tokens.RotationEndsIdle(d.tokens, q, token, successor, expires);
    forall r | r in end.procs && r != p ensures end.procs[r].pending.Keys !! targets {
      if r != q {
        Tokens.RotationLeavesOthers(d.tokens, q, token, successor, expires, r);
      }
    }
  }

  lemma RotationIsItsOwn(q: Id, token: Id, successor: Id, expires: Time, p: Id)
    requires p != q
    ensures forall m :: m in Rotation(q, token, successor, expires) ==> !ActsAs(m, p)
  {
  }

  lemma PickedExchangeable(d: Database, p: Id, target: Tokens.Target, q: Id, token: Id, successor: Id)
    requires Inv(d) && PhaseOf(d, p).Idle? && HoldOf(d, p).Clear? && Allowed(d, Tokens.StartRevocation(p, target))
    requires p != q && Exchangeable(d, q, token) && Tokens.NewToken(d.tokens, successor)
    requires Tokens.Free(d.tokens, p, Tokens.Matching(d.tokens.rows, target))
    ensures var picked := Picked(d, p, target);
            && Exchangeable(picked, q, token) && Tokens.NewToken(picked.tokens, successor)
            && picked.tokens.rows == d.tokens.rows && picked.tokens.chains == d.tokens.chains
            && Tokens.Free(picked.tokens, p, Tokens.Matching(d.tokens.rows, target))
  {
  }

  /**
   And it can happen whenever it matters: from every state in which a token is
   live and unexpired and its rows are free, a revocation that marks no session
   can be overtaken by a rotation and leave the successor live.
  */
  lemma TokenRevocationCanMiss(d: Database, p: Id, target: Tokens.Target, q: Id, token: Id, successor: Id,
                               expires: Time)
    requires Inv(d) && PhaseOf(d, p).Idle? && HoldOf(d, p).Clear? && Allowed(d, Tokens.StartRevocation(p, target))
    requires p != q && Exchangeable(d, q, token) && Tokens.NewToken(d.tokens, successor)
    requires Tokens.Free(d.tokens, p, Tokens.Matching(d.tokens.rows, target))
    ensures var before := Run(Picked(d, p, target), Rotation(q, token, successor, expires));
            && Tokens.Free(before.tokens, p, Tokens.Matching(d.tokens.rows, target))
            && Tokens.LiveTokens(Finished(before, p).tokens, d.tokens.rows[token].family) == {successor}
  {
    var picked, family := Picked(d, p, target), d.tokens.rows[token].family;
    var between := Rotation(q, token, successor, expires);
    StepKeepsInv(d, Statement(Tokens.StartRevocation(p, target)));
    PickedExchangeable(d, p, target, q, token, successor);
    RotationTokens(picked, q, token, successor, expires);
    Tokens.RotationGoesThrough(picked.tokens, q, token, successor, expires);
    RotationFrees(picked, p, q, token, successor, expires, Tokens.Matching(d.tokens.rows, target));
    RotationIsItsOwn(q, token, successor, expires, p);
    TokensAlone(d, p, target, between);
    Tokens.FinishedLeaves(Run(picked, between).tokens, p, family);
  }

  // ---- Runs ------------------------------------------------------------------------------------------ //

  lemma RunCons(d: Database, m: Move, rest: seq<Move>)
    ensures Run(d, [m] + rest) == Run(Step(d, m), rest)
  {
    assert ([m] + rest)[1..] == rest;
  }

  lemma {:induction false} RunAppend(d: Database, a: seq<Move>, b: seq<Move>)
    ensures Run(d, a + b) == Run(Run(d, a), b)
    decreases |a|
  {
    if a == [] {
      assert a + b == b;
    } else {
      assert (a + b)[1..] == a[1..] + b;
      RunAppend(Step(d, a[0]), a[1..], b);
    }
  }

  /** User 5 logs in with token 1 of family 10, with or without a session, and starts to exchange it. */
  function ClaimToken(track: bool): seq<Move> {
    [Login(1, 10, 5, 100, track), Statement(Tokens.Read(1, 1)), Statement(Tokens.Claim(1)), SeeSession(1)]
  }

  /** Family 10 and its session, if it has one, with these tokens and holds. */
  function Family(tokens: Tokens.System, track: bool, holds: map<Id, Hold>): Database {
    Database(tokens, if track then map[10 := Session(5, false)] else map[], holds, if track then {10} else {}, {})
  }

  lemma ClaimedIsReachable(track: bool)
    ensures Run(Empty(0), ClaimToken(track))
            == Family(Tokens.TokenClaimed(), track, map[1 := if track then Saw else Passed({})])
  {
    Tokens.RotationSteps();
    var holds := map[1 := if track then Saw else Passed({})];
    var d1, d2 := Family(Tokens.LoggedIn(), track, map[]), Family(Tokens.TokenRead(), track, map[]);
    var d3, d4 := Family(Tokens.TokenClaimed(), track, map[]), Family(Tokens.TokenClaimed(), track, holds);
    assert Step(Empty(0), Login(1, 10, 5, 100, track)) == d1;
    assert Step(d1, Statement(Tokens.Read(1, 1))) == d2;
    assert Step(d2, Statement(Tokens.Claim(1))) == d3;
    assert Step(d3, SeeSession(1)) == d4;
    RunCons(d3, SeeSession(1), []);
    RunCons(d2, Statement(Tokens.Claim(1)), [SeeSession(1)]);
    RunCons(d1, Statement(Tokens.Read(1, 1)), [Statement(Tokens.Claim(1)), SeeSession(1)]);
    RunCons(Empty(0), Login(1, 10, 5, 100, track),
            [Statement(Tokens.Read(1, 1)), Statement(Tokens.Claim(1)), SeeSession(1)]);
  }

  /** The rotation writes its session, if it saw one, and issues token 2. */
  function IssueToken(): seq<Move> {
    [TouchSession(1), Statement(Tokens.Issue(1, 2, 100))]
  }

  lemma IssuedIsReachable(track: bool)
    ensures Run(Empty(0), ClaimToken(track) + IssueToken())
            == Family(Tokens.IssuedState(), track, map[1 := Passed(if track then {10} else {})])
  {
    ClaimedIsReachable(track);
    Tokens.RotationSteps();
    var d1 := Family(Tokens.TokenClaimed(), track, map[1 := if track then Saw else Passed({})]);
    var holds := map[1 := Passed(if track then {10} else {})];
    var d2, d3 := Family(Tokens.TokenClaimed(), track, holds), Family(Tokens.IssuedState(), track, holds);
    assert Step(d1, TouchSession(1)) == d2;
    assert Step(d2, Statement(Tokens.Issue(1, 2, 100))) == d3;
    RunAppend(Empty(0), ClaimToken(track), IssueToken());
    RunCons(d2, Statement(Tokens.Issue(1, 2, 100)), []);
    RunCons(d1, TouchSession(1), [Statement(Tokens.Issue(1, 2, 100))]);
  }

  /** A revocation of tokens starts, waits for the rotation in flight, and goes on. */
  function RevokeDuringRotation(target: Tokens.Target): seq<Move> {
    [Statement(Tokens.StartRevocation(2, target)), Statement(Tokens.Commit(1)),
     Statement(Tokens.FinishRevocation(2)), Statement(Tokens.Commit(2))]
  }

  /** Targets of requests that touch no session: of the family if it has none, of the user, of the token presented. */
  predicate MarksNothing(target: Tokens.Target, track: bool) {
    target == Tokens.OfToken(1) || target == Tokens.OfUser(5) || (target == Tokens.OfFamily(10) && !track)
  }

  lemma PicksTokenOne(target: Tokens.Target, track: bool)
    requires MarksNothing(target, track)
    ensures Tokens.Matching(Tokens.IssuedState().rows, target) == {1}
  {
  }

  function Sweeping(): Tokens.Process {
    Tokens.Process(Tokens.Sweeping({1}), map[])
  }

  lemma StartsWhileIssued(target: Tokens.Target, track: bool, holds: map<Id, Hold>)
    requires MarksNothing(target, track) && 2 !in holds
    ensures var s := Tokens.IssuedState();
            Step(Family(s, track, holds), Statement(Tokens.StartRevocation(2, target)))
            == Family(s.(procs := s.procs[2 := Sweeping()]), track, holds)
  {
    PicksTokenOne(target, track);
  }
  function Idle(): Tokens.Process {
    Tokens.Process(Tokens.Idle, map[])
  }

  /** The family after the rotation's commit, with the revocation still at its old picks. */
  function SweepingAfterRotation(): Tokens.System {
    Tokens.AfterRotation().(procs := map[1 := Idle(), 2 := Sweeping()])
  }

  lemma CommitsUnderSweep(track: bool, hold: Hold)
    requires !hold.Marking?
    ensures var s := Tokens.IssuedState();
            Step(Family(s.(procs := s.procs[2 := Sweeping()]), track, map[1 := hold]), Statement(Tokens.Commit(1)))
            == Family(SweepingAfterRotation(), track, map[1 := Clear])
  {
    var s := Tokens.IssuedState();
    var procs := s.procs[2 := Sweeping()];
    Tokens.CommitAfterIssue(procs);
    assert procs[1 := Idle()] == map[1 := Idle(), 2 := Sweeping()];
    var d := Family(s.(procs := procs), track, map[1 := hold]);
    assert WithRevoked(d.sessions, {}) == d.sessions;
    assert map[1 := hold][1 := Clear] == map[1 := Clear];
  }

  /** What the revocation then does to the rows: it marks the old token and misses the new one. */
  lemma SweepsOldToken(track: bool)
    ensures MissedSuccessor(Finished(Family(SweepingAfterRotation(), track, map[1 := Clear]), 2).tokens)
  {
    var d := Family(SweepingAfterRotation(), track, map[1 := Clear]);
    assert Tokens.Revoked(d.tokens.rows, {1}) == map[1 := Tokens.Row(10, 5, true, true, 100)];
    FinishedWrites(d, 2);
    MissedIn(Finished(d, 2).tokens);
  }

  lemma MissedIn(s: Tokens.System)
    requires s.rows == Tokens.AfterRotation().rows + map[1 := Tokens.Row(10, 5, true, true, 100)]
    requires 10 in s.chains
    ensures MissedSuccessor(s)
  {
    assert 2 in Tokens.LiveTokens(s, 10);
  }

  /** Token 1 is revoked, and its successor is live. */
  ghost predicate MissedSuccessor(s: Tokens.System) {
    && 1 in s.rows && s.rows[1].revoked && s.rows[1].family == 10
    && Tokens.LiveTokens(s, 10) == {2} && !Tokens.Dead(s, 10)
  }

  lemma FinishedWrites(d: Database, p: Id)
    requires PhaseOf(d, p).Sweeping? && Tokens.Free(d.tokens, p, PhaseOf(d, p).targets)
    ensures var end := Finished(d, p).tokens;
            && end.rows == d.tokens.rows + Tokens.Revoked(d.tokens.rows, PhaseOf(d, p).targets)
            && end.chains == d.tokens.chains
  {
  }

  /**
   A request that touches token rows alone misses the successor of a rotation
   in flight: a revocation of a family without session, a revocation of all
   tokens of a user, a logout.
  */
  lemma TokenRevocationMissesSuccessor(target: Tokens.Target, track: bool)
    requires MarksNothing(target, track)
    ensures MissedSuccessor(Run(Empty(0), ClaimToken(track) + IssueToken() + RevokeDuringRotation(target)).tokens)
  {
    IssuedIsReachable(track);
    RunAppend(Empty(0), ClaimToken(track) + IssueToken(), RevokeDuringRotation(target));
    var hold := Passed(if track then {10} else {});
    StartsWhileIssued(target, track, map[1 := hold]);
    CommitsUnderSweep(track, hold);
    RevokeDuringRotationRuns(Family(Tokens.IssuedState(), track, map[1 := hold]), target);
    SweepsOldToken(track);
  }

  lemma RevokeDuringRotationRuns(d: Database, target: Tokens.Target)
    ensures Run(d, RevokeDuringRotation(target)) == Finished(Step(Picked(d, 2, target), Statement(Tokens.Commit(1))), 2)
  {
    var d1 := Picked(d, 2, target);
    var d2 := Step(d1, Statement(Tokens.Commit(1)));
    var d3 := Step(d2, Statement(Tokens.FinishRevocation(2)));
    RunCons(d3, Statement(Tokens.Commit(2)), []);
    RunCons(d2, Statement(Tokens.FinishRevocation(2)), [Statement(Tokens.Commit(2))]);
    RunCons(d1, Statement(Tokens.Commit(1)), [Statement(Tokens.FinishRevocation(2)), Statement(Tokens.Commit(2))]);
    RunCons(d, Statement(Tokens.StartRevocation(2, target)),
            [Statement(Tokens.Commit(1)), Statement(Tokens.FinishRevocation(2)), Statement(Tokens.Commit(2))]);
  }

  /** A revocation of the session takes its row while the rotation has claimed, and picks the claimed token. */
  function TakeSession(): seq<Move> {
    [PickSession(2, 10), MarkSession(2, 10), Statement(Tokens.StartRevocation(2, Tokens.OfFamily(10)))]
  }

  /** The state both sides are stuck in. */
  function Stuck(): Database {
    var s := Tokens.TokenClaimed();
    Family(s.(procs := s.procs[2 := Sweeping()]), true, map[1 := Saw, 2 := Marking(Tokens.OfFamily(10), {}, {10})])
  }

  lemma TakeSessionRuns()
    ensures Run(Family(Tokens.TokenClaimed(), true, map[1 := Saw]), TakeSession()) == Stuck()
  {
    var s, target := Tokens.TokenClaimed(), Tokens.OfFamily(10);
    var d1 := Family(s, true, map[1 := Saw]);
    var d2 := Family(s, true, map[1 := Saw, 2 := Marking(target, {10}, {})]);
    var d3 := Family(s, true, map[1 := Saw, 2 := Marking(target, {}, {10})]);
    assert Tokens.Matching(s.rows, target) == {1};
    assert Step(d1, PickSession(2, 10)) == d2;
    assert {10} - {10} == {} && {} + {10} == {10};
    assert Step(d2, MarkSession(2, 10)) == d3;
    assert Step(d3, Statement(Tokens.StartRevocation(2, target))) == Stuck();
    RunCons(d3, Statement(Tokens.StartRevocation(2, target)), []);
    RunCons(d2, MarkSession(2, 10), [Statement(Tokens.StartRevocation(2, target))]);
    RunCons(d1, PickSession(2, 10), [MarkSession(2, 10), Statement(Tokens.StartRevocation(2, target))]);
  }

  /** A reachable deadlock; the rotation is its victim, and the revocation then ends the family. */
  lemma DeadlockCanHappen()
    ensures var stuck := Run(Empty(0), ClaimToken(true) + TakeSession());
            && Deadlocked(stuck, 2, 1)
            && Tokens.LiveTokens(stuck.tokens, 10) == {1}
            && Tokens.Dead(Finished(Step(stuck, Statement(Tokens.Rollback(1))), 2).tokens, 10)
  {
    ClaimedIsReachable(true);
    TakeSessionRuns();
    RunAppend(Empty(0), ClaimToken(true), TakeSession());
    VictimGone();
  }

  lemma VictimGone()
    ensures Tokens.LiveTokens(Stuck().tokens, 10) == {1}
    ensures Tokens.Dead(Finished(Step(Stuck(), Statement(Tokens.Rollback(1))), 2).tokens, 10)
  {
    var freed := Step(Stuck(), Statement(Tokens.Rollback(1)));
    assert freed.tokens.rows == map[1 := Tokens.Row(10, 5, false, false, 100)];
    assert freed.tokens.procs == map[1 := Idle(), 2 := Sweeping()];
    assert Tokens.Revoked(freed.tokens.rows, {1}) == map[1 := Tokens.Row(10, 5, false, true, 100)];
    FinishedWrites(freed, 2);
  }
}
