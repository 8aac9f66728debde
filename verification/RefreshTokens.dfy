/**
 Refresh-token rotation with theft detection.  Every request runs in one
 database transaction: its writes stay pending, and lock the rows they touch,
 until the request commits; a request that raises is rolled back.  Statements
 of different requests interleave freely.
*/
module RefreshTokens {
  import opened Support

  /** A token row, keyed by the token itself (the table stores its hash). */
  datatype Row = Row(family: Id, user: Id, used: bool, revoked: bool, expires: Time) {
    predicate Live() {
      !used && !revoked
    }
  }

  // ---- The statements -------------------------------------------------- //

  predicate Claimable(rows: map<Id, Row>, token: Id) {
    token in rows && rows[token].Live()
  }

  /** UPDATE ... SET used_at WHERE id AND used_at IS NULL AND NOT revoked. */
  function ClaimRow(rows: map<Id, Row>, token: Id): map<Id, Row> {
    if Claimable(rows, token) then rows[token := rows[token].(used := true)] else rows
  }

  /** The new versions of the given rows when they are revoked. */
  function Revoked(rows: map<Id, Row>, tokens: set<Id>): map<Id, Row> {
    map t | t in rows && t in tokens :: rows[t].(revoked := true)
  }

  /** What a revocation asks for. */
  datatype Target = OfFamily(family: Id) | OfUser(user: Id) | OfToken(token: Id)

  predicate Matches(t: Id, row: Row, target: Target) {
    match target
    case OfFamily(family) => row.family == family
    case OfUser(user) => row.user == user
    case OfToken(token) => t == token
  }

  function Matching(rows: map<Id, Row>, target: Target): set<Id> {
    set t | t in rows && Matches(t, rows[t], target)
  }

  function RevokeRows(rows: map<Id, Row>, family: Id): map<Id, Row> {
    rows + Revoked(rows, Matching(rows, OfFamily(family)))
  }

  function ExpiredBefore(rows: map<Id, Row>, cutoff: Time): set<Id> {
    set t | t in rows && rows[t].expires < cutoff
  }

  /** Which rows a revocation picks. */
  lemma MatchingRows(rows: map<Id, Row>, t: Id, id: Id)
    ensures t in Matching(rows, OfFamily(id)) <==> t in rows && rows[t].family == id
    ensures t in Matching(rows, OfUser(id)) <==> t in rows && rows[t].user == id
    ensures t in Matching(rows, OfToken(id)) <==> t in rows && t == id
  {
  }

  // ---- The machine -------------------------------------------------------- //

  /**
   Where a request stands.  A rotation goes from Ready over Claimed to
   Issued, or ends in Raised; a revocation has picked its rows (Sweeping) and
   then written them (Swept).
  */
  datatype Phase =
    | Idle
    | Ready(token: Id, family: Id, user: Id)
    | Claimed(token: Id, family: Id, user: Id)
    | Issued(token: Id, family: Id, user: Id, successor: Id)
    | MustRevoke(family: Id)
    | Raised
    | Sweeping(targets: set<Id>)
    | Swept

  /** A request and its uncommitted row versions. */
  datatype Process = Process(phase: Phase, pending: map<Id, Row>)

  /** rows is what is committed; chains records, for each family, the tokens committed so far, login token first. */
  datatype System = System(rows: map<Id, Row>, procs: map<Id, Process>, chains: map<Id, seq<Id>>, now: Time)

  datatype Action =
    | Login(token: Id, family: Id, user: Id, expires: Time)
    | Read(p: Id, token: Id)
    | Claim(p: Id)
    | Issue(p: Id, token: Id, expires: Time)
    | RejectUser(p: Id)
    | RevokeFamily(p: Id)
    | StartRevocation(p: Id, target: Target)
    | FinishRevocation(p: Id)
    | Commit(p: Id)
    | Rollback(p: Id)
    | DeleteExpired(cutoff: Time)
    | Tick(elapsed: nat)

  function ProcOf(s: System, p: Id): Process {
    if p in s.procs then s.procs[p] else Process(Idle, map[])
  }

  function SetProc(s: System, p: Id, phase: Phase, pending: map<Id, Row>): System {
    s.(procs := s.procs[p := Process(phase, pending)])
  }

  /** No other request has uncommitted versions of these rows. */
  predicate Free(s: System, p: Id, tokens: set<Id>) {
    forall q :: q in s.procs && q != p ==> s.procs[q].pending.Keys !! tokens
  }

  predicate InChains(s: System, token: Id) {
    exists f :: f in s.chains && token in s.chains[f]
  }

  /** Tokens are random: a new one was never handed out before. */
  predicate NewToken(s: System, token: Id) {
    && token !in s.rows && !InChains(s, token)
    && forall q :: q in s.procs ==> token !in s.procs[q].pending
  }

  /** Everything between the read and the next statement is local to the rotation. */
  function AfterRead(s: System, token: Id): Phase {
    if token !in s.rows then Idle
    else
      var row := s.rows[token];
      if !row.Live() then MustRevoke(row.family)
      else if row.expires < s.now then Idle
      else Ready(token, row.family, row.user)
  }

  /** A statement on rows another request has locked waits, which here changes nothing. */
  function Step(s: System, a: Action): System {
    match a
    case Login(token, family, user, expires) =>
      if family in s.chains || !NewToken(s, token) then s
      else s.(rows := s.rows[token := Row(family, user, false, false, expires)],
              chains := s.chains[family := [token]])
    case Read(p, token) =>
      if ProcOf(s, p).phase.Idle? then SetProc(s, p, AfterRead(s, token), map[]) else s
    case Claim(p) =>
      var phase := ProcOf(s, p).phase;
      if !phase.Ready? || !Free(s, p, {phase.token}) then s
      else if Claimable(s.rows, phase.token) then
        SetProc(s, p, Claimed(phase.token, phase.family, phase.user),
                map[phase.token := s.rows[phase.token].(used := true)])
      else SetProc(s, p, MustRevoke(phase.family), map[])
    case Issue(p, token, expires) =>
      var proc := ProcOf(s, p);
      var phase := proc.phase;
      if !phase.Claimed? || !NewToken(s, token) then s
      else SetProc(s, p, Issued(phase.token, phase.family, phase.user, token),
                   proc.pending[token := Row(phase.family, phase.user, false, false, expires)])
    case RejectUser(p) =>
      var proc := ProcOf(s, p);
      if proc.phase.Claimed? then SetProc(s, p, Raised, proc.pending) else s
    case RevokeFamily(p) =>
      var phase := ProcOf(s, p).phase;
      if !phase.MustRevoke? then s
      else
        var targets := Matching(s.rows, OfFamily(phase.family));
        if Free(s, p, targets) then SetProc(s, p, Raised, Revoked(s.rows, targets)) else s
    case StartRevocation(p, target) =>
      if ProcOf(s, p).phase.Idle? then SetProc(s, p, Sweeping(Matching(s.rows, target)), map[]) else s
    case FinishRevocation(p) =>
      var phase := ProcOf(s, p).phase;
      if phase.Sweeping? && Free(s, p, phase.targets)
      then SetProc(s, p, Swept, Revoked(s.rows, phase.targets))
      else s
    case Commit(p) =>
      var proc := ProcOf(s, p);
      if proc.phase.Issued? && proc.phase.family in s.chains then
        System(s.rows + proc.pending,
               s.procs[p := Process(Idle, map[])],
               s.chains[proc.phase.family := s.chains[proc.phase.family] + [proc.phase.successor]],
               s.now)
      else if proc.phase.Swept? then SetProc(s.(rows := s.rows + proc.pending), p, Idle, map[])
      else s
    case Rollback(p) => SetProc(s, p, Idle, map[])
    case DeleteExpired(cutoff) =>
      var expired := ExpiredBefore(s.rows, cutoff);
      if forall q :: q in s.procs ==> s.procs[q].pending.Keys !! expired
      then s.(rows := s.rows - expired)
      else s
    case Tick(elapsed) => s.(now := s.now + elapsed)
  }

  function Run(s: System, actions: seq<Action>): System
    decreases |actions|
  {
    if actions == [] then s else Run(Step(s, actions[0]), actions[1..])
  }

  function Empty(now: Time): System {
    System(map[], map[], map[], now)
  }

  // ---- The invariant ---------------------------------------------------------- //

  function Last(chain: seq<Id>): Id
    requires chain != []
  {
    chain[|chain| - 1]
  }

  ghost predicate ChainsWellFormed(s: System) {
    && (forall f :: f in s.chains ==> s.chains[f] != [] && NoDuplicates(s.chains[f]))
    && (forall f, g, t :: f in s.chains && g in s.chains && t in s.chains[f] && t in s.chains[g] ==> f == g)
  }

  /** A committed row lies on its family's chain, and all but the newest are used. */
  ghost predicate OnChain(s: System, t: Id)
    requires t in s.rows
  {
    && s.rows[t].family in s.chains
    && s.chains[s.rows[t].family] != []
    && t in s.chains[s.rows[t].family]
    && (s.rows[t].used || t == Last(s.chains[s.rows[t].family]))
  }

  /** A claim holds a row that is still live for everybody else. */
  ghost predicate HoldsClaim(s: System, proc: Process, token: Id, family: Id) {
    && token in s.rows && s.rows[token].Live() && s.rows[token].family == family
    && token in proc.pending && proc.pending[token] == s.rows[token].(used := true)
  }

  ghost predicate ProcOk(s: System, p: Id)
    requires p in s.procs
  {
    var proc := s.procs[p];
    match proc.phase
    case Idle => proc.pending == map[]
    case Ready(token, family, _) =>
      proc.pending == map[] && family in s.chains && token in s.chains[family]
    case Claimed(token, family, _) => HoldsClaim(s, proc, token, family) && proc.pending.Keys == {token}
    case Issued(token, family, user, successor) =>
      && HoldsClaim(s, proc, token, family) && proc.pending.Keys == {token, successor}
      && successor !in s.rows && !InChains(s, successor)
      && proc.pending[successor].family == family && proc.pending[successor].user == user
      && proc.pending[successor].Live()
    case MustRevoke(_) => proc.pending == map[]
    case Raised => proc.pending.Keys <= s.rows.Keys
    case Sweeping(_) => proc.pending == map[]
    case Swept =>
      && proc.pending.Keys <= s.rows.Keys
      && forall t :: t in proc.pending ==> proc.pending[t] == s.rows[t].(revoked := true)
  }

  /** A row is locked by one request at most. */
  ghost predicate LocksExclusive(s: System) {
    forall p, q :: p in s.procs && q in s.procs && p != q ==> s.procs[p].pending.Keys !! s.procs[q].pending.Keys
  }

  ghost predicate Inv(s: System) {
    && ChainsWellFormed(s)
    && (forall t :: t in s.rows ==> OnChain(s, t))
    && (forall p :: p in s.procs ==> ProcOk(s, p))
    && LocksExclusive(s)
  }

  /** A request that takes new locks only on rows nobody holds, and is itself in order, keeps the invariant. */
  lemma SetProcKeepsInv(s: System, p: Id, phase: Phase, pending: map<Id, Row>)
    requires Inv(s) && Free(s, p, pending.Keys)
    requires ProcOk(SetProc(s, p, phase, pending), p)
    ensures Inv(SetProc(s, p, phase, pending))
  {
    var s' := SetProc(s, p, phase, pending);
    forall t | t in s'.rows ensures OnChain(s', t) {
      assert OnChain(s, t);
    }
    forall q | q in s'.procs ensures ProcOk(s', q) {
      assert q != p ==> ProcOk(s, q) && s'.procs[q] == s.procs[q];
    }
  }

  lemma LoginKeepsInv(s: System, token: Id, family: Id, user: Id, expires: Time)
    requires Inv(s)
    ensures Inv(Step(s, Login(token, family, user, expires)))
  {
    var s' := Step(s, Login(token, family, user, expires));
    if family !in s.chains && NewToken(s, token) {
      forall t | t in s'.rows ensures OnChain(s', t) {
        assert t != token ==> OnChain(s, t);
      }
      forall q | q in s'.procs ensures ProcOk(s', q) {
        LoginKeepsProcOk(s, token, family, user, expires, q);
      }
    }
  }

  lemma LoginKeepsProcOk(s: System, token: Id, family: Id, user: Id, expires: Time, q: Id)
    requires Inv(s) && family !in s.chains && NewToken(s, token) && q in s.procs
    ensures ProcOk(Step(s, Login(token, family, user, expires)), q)
  {
    assert ProcOk(s, q);
  }

  lemma ClaimKeepsInv(s: System, p: Id)
    requires Inv(s)
    ensures Inv(Step(s, Claim(p)))
  {
    var phase := ProcOf(s, p).phase;
    if phase.Ready? && Free(s, p, {phase.token}) {
      assert ProcOk(s, p);
      if Claimable(s.rows, phase.token) {
        assert OnChain(s, phase.token);
        SetProcKeepsInv(s, p, Claimed(phase.token, phase.family, phase.user),
                        map[phase.token := s.rows[phase.token].(used := true)]);
      } else {
        SetProcKeepsInv(s, p, MustRevoke(phase.family), map[]);
      }
    }
  }

  lemma IssueKeepsInv(s: System, p: Id, token: Id, expires: Time)
    requires Inv(s)
    ensures Inv(Step(s, Issue(p, token, expires)))
  {
    var proc := ProcOf(s, p);
    if proc.phase.Claimed? && NewToken(s, token) {
      assert ProcOk(s, p);
      var pending := proc.pending[token := Row(proc.phase.family, proc.phase.user, false, false, expires)];
      assert forall q :: q in s.procs && q != p ==> s.procs[q].pending.Keys !! proc.pending.Keys;
      SetProcKeepsInv(s, p, Issued(proc.phase.token, proc.phase.family, proc.phase.user, token), pending);
    }
  }

  /** Statements that lead a request into Raised, Sweeping or Swept. */
  lemma RevocationKeepsInv(s: System, a: Action)
    requires Inv(s)
    requires a.RejectUser? || a.RevokeFamily? || a.StartRevocation? || a.FinishRevocation?
    ensures Inv(Step(s, a))
  {
    var s', proc := Step(s, a), ProcOf(s, a.p);
    if s' != s {
      if a.RejectUser? {
        assert ProcOk(s, a.p);
        assert forall q :: q in s.procs && q != a.p ==> s.procs[q].pending.Keys !! proc.pending.Keys;
      }
      SetProcKeepsInv(s, a.p, s'.procs[a.p].phase, s'.procs[a.p].pending);
    }
  }

  lemma CommitSweptKeepsInv(s: System, p: Id)
    requires Inv(s) && ProcOf(s, p).phase.Swept?
    ensures Inv(Step(s, Commit(p)))
  {
    var s', pending := Step(s, Commit(p)), s.procs[p].pending;
    assert ProcOk(s, p);
    forall t | t in s'.rows ensures OnChain(s', t) {
      assert OnChain(s, t);
    }
    forall q | q in s'.procs ensures ProcOk(s', q) {
      if q != p {
        assert ProcOk(s, q) && s.procs[q].pending.Keys !! pending.Keys;
      }
    }
  }

  /** The claimed token is the newest of its family. */
  lemma ClaimIsLast(s: System, p: Id)
    requires Inv(s) && p in s.procs && (s.procs[p].phase.Claimed? || s.procs[p].phase.Issued?)
    ensures var phase := s.procs[p].phase;
            && phase.family in s.chains && s.chains[phase.family] != []
            && phase.token == Last(s.chains[phase.family])
            && HoldsClaim(s, s.procs[p], phase.token, phase.family)
  {
    assert ProcOk(s, p);
    assert OnChain(s, s.procs[p].phase.token);
  }

  lemma CommitIssuedChains(s: System, p: Id)
    requires Inv(s) && ProcOf(s, p).phase.Issued?
    ensures ChainsWellFormed(Step(s, Commit(p)))
  {
    ClaimIsLast(s, p);
    assert ProcOk(s, p);
    var phase := s.procs[p].phase;
    assert Step(s, Commit(p)).chains[phase.family] == s.chains[phase.family] + [phase.successor];
  }

  /** A rotation's successor goes to the end of the chain, and its own token is then used. */
  lemma CommitIssuedRows(s: System, p: Id)
    requires Inv(s) && ProcOf(s, p).phase.Issued?
    ensures var s' := Step(s, Commit(p));
            ChainsWellFormed(s') && forall t :: t in s'.rows ==> OnChain(s', t)
  {
    CommitIssuedChains(s, p);
    var s', phase := Step(s, Commit(p)), s.procs[p].phase;
    forall t | t in s'.rows ensures OnChain(s', t) {
      if t in s.rows {
        CommitIssuedRow(s, p, t);
      } else {
        SuccessorOnChain(s, p);
        assert t == phase.successor;
      }
    }
  }

  lemma SuccessorOnChain(s: System, p: Id)
    requires Inv(s) && ProcOf(s, p).phase.Issued?
    ensures var (s', successor) := (Step(s, Commit(p)), s.procs[p].phase.successor);
            s'.rows.Keys == s.rows.Keys + {successor} && OnChain(s', successor)
  {
    ClaimIsLast(s, p);
    assert ProcOk(s, p);
    var phase := s.procs[p].phase;
    assert Step(s, Commit(p)).chains[phase.family] == s.chains[phase.family] + [phase.successor];
  }

  lemma CommitIssuedRow(s: System, p: Id, t: Id)
    requires Inv(s) && ProcOf(s, p).phase.Issued? && t in s.rows
    ensures t in Step(s, Commit(p)).rows && OnChain(Step(s, Commit(p)), t)
  {
    ClaimIsLast(s, p);
    assert ProcOk(s, p) && OnChain(s, t);
    ChainsGrow(s, Commit(p), s.rows[t].family);
  }

  lemma CommitIssuedOthers(s: System, p: Id, q: Id)
    requires Inv(s) && ProcOf(s, p).phase.Issued? && q in s.procs && q != p
    ensures ProcOk(Step(s, Commit(p)), q)
  {
    ClaimIsLast(s, p);
    assert ProcOk(s, p) && ProcOk(s, q);
    var phase, pending := s.procs[p].phase, s.procs[p].pending;
    assert s.procs[q].pending.Keys !! pending.Keys;
    if s.procs[q].phase.Issued? {
      assert s.procs[q].phase.successor in s.procs[q].pending.Keys && phase.successor in pending.Keys;
    }
  }

  lemma CommitKeepsLocksExclusive(s: System, p: Id)
    requires Inv(s) && ProcOf(s, p).phase.Issued?
    ensures LocksExclusive(Step(s, Commit(p)))
  {
  }

  lemma CommitIssuedKeepsInv(s: System, p: Id)
    requires Inv(s) && ProcOf(s, p).phase.Issued?
    ensures Inv(Step(s, Commit(p)))
  {
    var s' := Step(s, Commit(p));
    CommitIssuedRows(s, p);
    CommitKeepsLocksExclusive(s, p);
    assert ProcOk(s', p);
    forall q | q in s'.procs && q != p ensures ProcOk(s', q) {
      CommitIssuedOthers(s, p, q);
    }
  }

  lemma DeleteKeepsInv(s: System, cutoff: Time)
    requires Inv(s)
    ensures Inv(Step(s, DeleteExpired(cutoff)))
  {
    var s' := Step(s, DeleteExpired(cutoff));
    forall t | t in s'.rows ensures OnChain(s', t) {
      assert OnChain(s, t);
    }
    forall q | q in s'.procs ensures ProcOk(s', q) {
      assert ProcOk(s, q);
    }
  }

  lemma TickKeepsInv(s: System, elapsed: nat)
    requires Inv(s)
    ensures Inv(Step(s, Tick(elapsed)))
  {
    var s' := Step(s, Tick(elapsed));
    forall t | t in s'.rows ensures OnChain(s', t) {
      assert OnChain(s, t);
    }
    forall q | q in s'.procs ensures ProcOk(s', q) {
      assert ProcOk(s, q);
    }
  }

  lemma ReadKeepsInv(s: System, p: Id, token: Id)
    requires Inv(s)
    ensures Inv(Step(s, Read(p, token)))
  {
    if ProcOf(s, p).phase.Idle? {
      if token in s.rows {
        assert OnChain(s, token);
      }
      SetProcKeepsInv(s, p, AfterRead(s, token), map[]);
    }
  }

  lemma StepKeepsInv(s: System, a: Action)
    requires Inv(s)
    ensures Inv(Step(s, a))
  {
    match a
    case Login(token, family, user, expires) => LoginKeepsInv(s, token, family, user, expires);
    case Read(p, token) => ReadKeepsInv(s, p, token);
    case Claim(p) => ClaimKeepsInv(s, p);
    case Issue(p, token, expires) => IssueKeepsInv(s, p, token, expires);
    case Commit(p) =>
      if ProcOf(s, p).phase.Issued? {
        CommitIssuedKeepsInv(s, p);
      } else if ProcOf(s, p).phase.Swept? {
        CommitSweptKeepsInv(s, p);
      }
    case Rollback(p) => SetProcKeepsInv(s, p, Idle, map[]);
    case DeleteExpired(cutoff) => DeleteKeepsInv(s, cutoff);
    case Tick(elapsed) => TickKeepsInv(s, elapsed);
    case _ => RevocationKeepsInv(s, a);
  }

  lemma {:induction false} RunKeepsInv(s: System, actions: seq<Action>)
    requires Inv(s)
    ensures Inv(Run(s, actions))
    decreases |actions|
  {
    if actions != [] {
      StepKeepsInv(s, actions[0]);
      RunKeepsInv(Step(s, actions[0]), actions[1..]);
    }
  }

  // ---- Conservation ---------------------------------------------------------- //

  /** Committed tokens of a family that are neither used nor revoked. */
  function LiveTokens(s: System, family: Id): set<Id> {
    set t | t in s.rows && s.rows[t].family == family && s.rows[t].Live()
  }

  /** Rotations that have claimed a token of the family and not yet committed or given it back. */
  function InFlight(s: System, family: Id): set<Id> {
    set p | p in s.procs && (s.procs[p].phase.Claimed? || s.procs[p].phase.Issued?) && s.procs[p].phase.family == family
  }

  /** Live tokens nobody is exchanging. */
  function Redeemable(s: System, family: Id): set<Id> {
    set t | t in LiveTokens(s, family) && forall p :: p in InFlight(s, family) ==> s.procs[p].phase.token != t
  }

  lemma AtMostOne(xs: set<Id>)
    requires forall x, y :: x in xs && y in xs ==> x == y
    ensures |xs| <= 1
  {
    if xs != {} {
      var x :| x in xs;
      assert xs == {x};
    }
  }

  lemma LiveIsLast(s: System, family: Id, t: Id)
    requires Inv(s) && t in LiveTokens(s, family)
    ensures family in s.chains && s.chains[family] != [] && t == Last(s.chains[family])
  {
    assert OnChain(s, t);
  }

  lemma OneInFlight(s: System, family: Id, p: Id, q: Id)
    requires Inv(s) && p in InFlight(s, family) && q in InFlight(s, family)
    ensures p == q && s.procs[p].phase.token in LiveTokens(s, family)
  {
    ClaimIsLast(s, p);
    ClaimIsLast(s, q);
    var token := Last(s.chains[family]);
    assert token in s.procs[p].pending.Keys && token in s.procs[q].pending.Keys;
  }

  /**
   In every reachable state of any interleaving, the tokens still to be
   redeemed and the rotations in flight make up exactly the family's live
   tokens, of which there is at most one.
  */
  lemma RotationConserved(now: Time, actions: seq<Action>, family: Id)
    ensures var s := Run(Empty(now), actions);
            |Redeemable(s, family)| + |InFlight(s, family)| == |LiveTokens(s, family)| <= 1
  {
    RunKeepsInv(Empty(now), actions);
    ConservedIn(Run(Empty(now), actions), family);
  }

  lemma ConservedIn(s: System, family: Id)
    requires Inv(s)
    ensures |Redeemable(s, family)| + |InFlight(s, family)| == |LiveTokens(s, family)| <= 1
  {
    var live, flying := LiveTokens(s, family), InFlight(s, family);
    forall t, u | t in live && u in live ensures t == u {
      LiveIsLast(s, family, t);
      LiveIsLast(s, family, u);
    }
    AtMostOne(live);
    if flying == {} {
      assert Redeemable(s, family) == live;
    } else {
      var p :| p in flying;
      forall q | q in flying ensures q == p {
        OneInFlight(s, family, p, q);
      }
      OneInFlight(s, family, p, p);
      assert flying == {p} && live == {s.procs[p].phase.token};
      assert Redeemable(s, family) == {};
    }
  }

  /** A step of a rotation: anything it does from reading the token to committing or being rolled back. */
  predicate RotationStep(s: System, a: Action) {
    || a.Read? || a.Claim? || a.Issue? || a.RejectUser? || a.RevokeFamily? || a.Rollback?
    || (a.Commit? && ProcOf(s, a.p).phase.Issued?)
  }

  /** A rotation makes no live token and destroys none: a committed one trades its token for one successor. */
  lemma RotationsConserve(s: System, a: Action, family: Id)
    requires Inv(s) && RotationStep(s, a)
    ensures |LiveTokens(Step(s, a), family)| == |LiveTokens(s, family)|
    ensures !a.Commit? ==> Step(s, a).rows == s.rows
  {
    OnlyCommitsWrite(s, a);
    if a.Commit? {
      if s.procs[a.p].phase.family == family {
        TradeInFamily(s, a.p);
      } else {
        TradeElsewhere(s, a.p, family);
      }
    } else {
      SameRowsSameLive(s, Step(s, a), family);
    }
  }

  lemma SameRowsSameLive(s: System, s': System, family: Id)
    requires s'.rows == s.rows
    ensures LiveTokens(s', family) == LiveTokens(s, family)
  {
  }

  lemma TradeElsewhere(s: System, p: Id, family: Id)
    requires Inv(s) && ProcOf(s, p).phase.Issued? && s.procs[p].phase.family != family
    ensures LiveTokens(Step(s, Commit(p)), family) == LiveTokens(s, family)
  {
    ClaimIsLast(s, p);
    assert ProcOk(s, p);
  }

  lemma TradeInFamily(s: System, p: Id)
    requires Inv(s) && ProcOf(s, p).phase.Issued?
    ensures var phase := s.procs[p].phase;
            && LiveTokens(s, phase.family) == {phase.token}
            && LiveTokens(Step(s, Commit(p)), phase.family) == {phase.successor}
  {
    var phase := s.procs[p].phase;
    ClaimIsLast(s, p);
    assert ProcOk(s, p);
    forall t | t in LiveTokens(s, phase.family) ensures t == phase.token {
      LiveIsLast(s, phase.family, t);
    }
    assert phase.token in LiveTokens(s, phase.family);
    var s' := Step(s, Commit(p));
    assert phase.successor in LiveTokens(s', phase.family);
    CommitIssuedKeepsInv(s, p);
    forall t | t in LiveTokens(s', phase.family) ensures t == phase.successor {
      LiveIsLast(s', phase.family, t);
      LiveIsLast(s', phase.family, phase.successor);
    }
  }

  /** A claim that is rolled back, because the user is gone or the request failed, is given back. */
  lemma ClaimGivenBack(s: System, p: Id)
    requires Inv(s) && p in s.procs && (s.procs[p].phase.Claimed? || s.procs[p].phase.Issued?)
    ensures var (token, family) := (s.procs[p].phase.token, s.procs[p].phase.family);
            && Redeemable(s, family) == {}
            && Redeemable(Step(s, Rollback(p)), family) == {token}
            && Claimable(Step(s, Rollback(p)).rows, token)
  {
    var (token, family) := (s.procs[p].phase.token, s.procs[p].phase.family);
    ClaimIsLast(s, p);
    assert token in LiveTokens(s, family) && p in InFlight(s, family);
    forall t | t in LiveTokens(s, family) ensures t == token {
      LiveIsLast(s, family, t);
      LiveIsLast(s, family, token);
    }
    var s' := Step(s, Rollback(p));
    if InFlight(s', family) != {} {
      var q :| q in InFlight(s', family);
      OneInFlight(s, family, p, q);
      assert false;
    }
    assert LiveTokens(s', family) == LiveTokens(s, family) == {token};
    assert Redeemable(s', family) == {token};
  }

  // ---- Families are chains ------------------------------------------------------- //

  /** Where the successor of a rotation goes: directly after the token it claimed, at the end of the family's chain. */
  lemma FamilyIsAChain(now: Time, actions: seq<Action>, p: Id)
    ensures var s := Run(Empty(now), actions);
            && ChainsWellFormed(s)
            && (forall t :: t in s.rows ==> OnChain(s, t))
            && (p in s.procs && s.procs[p].phase.Issued? ==>
                  var phase := s.procs[p].phase;
                  && phase.family in s.chains && s.chains[phase.family] != []
                  && Last(s.chains[phase.family]) == phase.token
                  && Step(s, Commit(p)).chains
                     == s.chains[phase.family := s.chains[phase.family] + [phase.successor]])
  {
    RunKeepsInv(Empty(now), actions);
    var s := Run(Empty(now), actions);
    if p in s.procs && s.procs[p].phase.Issued? {
      ClaimIsLast(s, p);
    }
  }

  /** A step that exchanges the token for good. */
  predicate Exchanges(s: System, a: Action, token: Id) {
    a.Commit? && ProcOf(s, a.p).phase.Issued? && ProcOf(s, a.p).phase.token == token
  }

  /** How often a run exchanges the token. */
  function Exchanged(s: System, actions: seq<Action>, token: Id): nat
    decreases |actions|
  {
    if actions == [] then 0
    else
      (if Exchanges(s, actions[0], token) then 1 else 0) + Exchanged(Step(s, actions[0]), actions[1..], token)
  }

  /** Exchanges a token still has ahead of it. */
  function ExchangesLeft(s: System, token: Id): nat {
    if token in s.rows then (if s.rows[token].used then 0 else 1)
    else if InChains(s, token) then 0
    else 1
  }

  lemma ChainsGrow(s: System, a: Action, f: Id)
    requires f in s.chains
    ensures f in Step(s, a).chains && s.chains[f] <= Step(s, a).chains[f]
  {
  }

  lemma InChainsStays(s: System, a: Action, token: Id)
    requires InChains(s, token)
    ensures InChains(Step(s, a), token)
  {
    var f :| f in s.chains && token in s.chains[f];
    ChainsGrow(s, a, f);
    assert token in Step(s, a).chains[f];
  }

  /** What may become of a row: it keeps its family and user, and marks once set stay set. */
  predicate Ages(before: Row, after: Row) {
    && after.family == before.family && after.user == before.user
    && (before.used ==> after.used) && (before.revoked ==> after.revoked)
  }

  lemma CommitAges(s: System, p: Id, t: Id)
    requires Inv(s) && t in Step(s, Commit(p)).rows
    ensures if t in s.rows then Ages(s.rows[t], Step(s, Commit(p)).rows[t]) else !InChains(s, t)
  {
    if ProcOf(s, p).phase.Issued? {
      ClaimIsLast(s, p);
      assert ProcOk(s, p);
    } else if ProcOf(s, p).phase.Swept? {
      assert ProcOk(s, p);
    }
  }

  /** Rows enter the table only as new tokens, and those there only age. */
  lemma RowsOnlyAge(s: System, a: Action, t: Id)
    requires Inv(s) && t in Step(s, a).rows
    ensures if t in s.rows then Ages(s.rows[t], Step(s, a).rows[t]) else !InChains(s, t)
  {
    if a.Commit? {
      CommitAges(s, a.p, t);
    } else {
      OnlyCommitsWrite(s, a);
    }
  }

  lemma StepSpendsExchange(s: System, a: Action, token: Id)
    requires Inv(s)
    ensures (if Exchanges(s, a, token) then 1 else 0) + ExchangesLeft(Step(s, a), token) <= ExchangesLeft(s, token)
  {
    var s' := Step(s, a);
    if token in s.rows {
      assert OnChain(s, token);
    }
    if InChains(s, token) {
      InChainsStays(s, a, token);
    }
    if token in s'.rows {
      RowsOnlyAge(s, a, token);
    }
    if Exchanges(s, a, token) {
      ClaimIsLast(s, a.p);
      assert ProcOk(s, a.p);
    }
  }

  lemma {:induction false} ExchangesBounded(s: System, actions: seq<Action>, token: Id)
    requires Inv(s)
    ensures Exchanged(s, actions, token) <= ExchangesLeft(s, token)
    decreases |actions|
  {
    if actions != [] {
      StepKeepsInv(s, actions[0]);
      StepSpendsExchange(s, actions[0], token);
      ExchangesBounded(Step(s, actions[0]), actions[1..], token);
    }
  }

  /** However many requests present it and however many are rolled back, no token is exchanged twice. */
  lemma ExchangedAtMostOnce(now: Time, actions: seq<Action>, token: Id)
    ensures Exchanged(Empty(now), actions, token) <= 1
  {
    ExchangesBounded(Empty(now), actions, token);
  }

  // ---- Refused rotations ------------------------------------------------------------ //

  predicate Refused(s: System, p: Id) {
    ProcOf(s, p).phase.MustRevoke? || ProcOf(s, p).phase.Raised?
  }

  /** Only a login, a committing request and the cleanup job change the table. */
  lemma OnlyCommitsWrite(s: System, a: Action)
    ensures Step(s, a).rows != s.rows ==>
              || a.Login? || a.DeleteExpired?
              || (a.Commit? && (ProcOf(s, a.p).phase.Issued? || ProcOf(s, a.p).phase.Swept?))
  {
  }

  lemma StepKeepsRefused(s: System, a: Action, p: Id)
    requires Refused(s, p) && a != Rollback(p)
    ensures Refused(Step(s, a), p)
  {
    if !ActsAs(a, p) {
      OthersUntouched(s, a, p);
    }
  }

  lemma OthersUntouched(s: System, a: Action, p: Id)
    requires p in s.procs && !ActsAs(a, p)
    ensures p in Step(s, a).procs && Step(s, a).procs[p] == s.procs[p]
  {
  }

  lemma OthersStand(s: System, a: Action, p: Id)
    requires !ActsAs(a, p)
    ensures ProcOf(Step(s, a), p) == ProcOf(s, p)
  {
  }

  lemma {:induction false} OthersStandOver(s: System, actions: seq<Action>, p: Id)
    requires forall a :: a in actions ==> !ActsAs(a, p)
    ensures ProcOf(Run(s, actions), p) == ProcOf(s, p)
    decreases |actions|
  {
    if actions != [] {
      OthersStand(s, actions[0], p);
      OthersStandOver(Step(s, actions[0]), actions[1..], p);
    }
  }

  /** Once refused, a rotation can do nothing but be rolled back, for as long as it takes. */
  lemma {:induction false} RefusedNeverCommits(s: System, actions: seq<Action>, p: Id)
    requires Refused(s, p) && Rollback(p) !in actions
    ensures Refused(Run(s, actions), p)
    ensures Step(Run(s, actions), Commit(p)) == Run(s, actions)
    decreases |actions|
  {
    if actions != [] {
      assert actions[0] != Rollback(p);
      StepKeepsRefused(s, actions[0], p);
      assert Rollback(p) !in actions[1..];
      RefusedNeverCommits(Step(s, actions[0]), actions[1..], p);
    } else {
      assert Step(s, Commit(p)) == s;
    }
  }

  lemma RunThree(s: System, a: Action, b: Action, c: Action)
    ensures Run(s, [a, b, c]) == Step(Step(Step(s, a), b), c)
  {
    RunCons(s, a, [b, c]);
    RunCons(Step(s, a), b, [c]);
    RunCons(Step(Step(s, a), b), c, []);
  }

  lemma RefusalWritesNothing(s: System, p: Id, token: Id)
    ensures var end := Step(Step(Step(s, Read(p, token)), RevokeFamily(p)), Rollback(p));
            end.rows == s.rows && end.chains == s.chains && ProcOf(end, p) == Process(Idle, map[])
  {
    var s1 := Step(s, Read(p, token));
    assert s1.rows == s.rows && s1.chains == s.chains;
    OnlyCommitsWrite(s1, RevokeFamily(p));
  }

  /**
   Presenting a used or revoked token is answered with a revocation of its
   family and then an error, which rolls the revocation back: the table is
   what it was, so every family keeps its live tokens.
  */
  lemma ReuseChangesNothing(s: System, p: Id, token: Id)
    requires ProcOf(s, p).phase.Idle? && token in s.rows && !s.rows[token].Live()
    ensures ProcOf(Step(s, Read(p, token)), p).phase == MustRevoke(s.rows[token].family)
    ensures var end := Run(s, [Read(p, token), RevokeFamily(p), Rollback(p)]);
            end.rows == s.rows && end.chains == s.chains && ProcOf(end, p) == Process(Idle, map[])
  {
    RefusalWritesNothing(s, p, token);
    RunThree(s, Read(p, token), RevokeFamily(p), Rollback(p));
  }

  // ---- Dead families --------------------------------------------------------------- //

  /** A family that exists but owns no live token. */
  predicate Dead(s: System, family: Id) {
    family in s.chains && LiveTokens(s, family) == {}
  }

  lemma DeadHasNoLive(s: System, family: Id, t: Id)
    requires Dead(s, family) && t in s.rows && s.rows[t].family == family
    ensures !s.rows[t].Live()
  {
    assert s.rows[t].Live() ==> t in LiveTokens(s, family);
  }

  lemma StepKeepsDead(s: System, a: Action, family: Id)
    requires Inv(s) && Dead(s, family)
    ensures Dead(Step(s, a), family)
  {
    var s' := Step(s, a);
    ChainsGrow(s, a, family);
    forall t | t in s'.rows && s'.rows[t].family == family ensures !s'.rows[t].Live() {
      RowsOnlyAge(s, a, t);
      if t in s.rows {
        DeadHasNoLive(s, family, t);
      } else if a.Commit? {
        assert ProcOk(s, a.p);
        ClaimIsLast(s, a.p);
        DeadHasNoLive(s, family, s.procs[a.p].phase.token);
      }
    }
  }

  /** A dead family stays dead in every future, for a claim needs a live row and keeps it locked until it commits. */
  lemma {:induction false} DeadStaysDead(s: System, future: seq<Action>, family: Id)
    requires Inv(s) && Dead(s, family)
    ensures Dead(Run(s, future), family)
    decreases |future|
  {
    if future != [] {
      StepKeepsInv(s, future[0]);
      StepKeepsDead(s, future[0], family);
      DeadStaysDead(Step(s, future[0]), future[1..], family);
    }
  }

  /** The cleanup job runs now, and with it goes every live token of the family. */
  predicate ExpiresFamily(s: System, a: Action, family: Id) {
    && a.DeleteExpired?
    && (forall q :: q in s.procs ==> s.procs[q].pending.Keys !! ExpiredBefore(s.rows, a.cutoff))
    && LiveTokens(s, family) <= ExpiredBefore(s.rows, a.cutoff)
  }

  /** An explicit revocation commits, and it has written every live token of the family. */
  predicate RevokesFamily(s: System, a: Action, family: Id) {
    a.Commit? && ProcOf(s, a.p).phase.Swept? && LiveTokens(s, family) <= ProcOf(s, a.p).pending.Keys
  }

  lemma SweptLeaves(s: System, p: Id, family: Id)
    requires Inv(s) && ProcOf(s, p).phase.Swept?
    ensures LiveTokens(Step(s, Commit(p)), family) == LiveTokens(s, family) - ProcOf(s, p).pending.Keys
  {
    assert ProcOk(s, p);
  }

  /**
   A living family dies in a step if and only if an explicit revocation that
   covers its live token commits, or that token is cleaned up; no step of any
   rotation, refused or not, ever ends one.
  */
  lemma FamilyDiesWhen(s: System, a: Action, family: Id)
    requires Inv(s) && family in s.chains && !Dead(s, family)
    ensures Dead(Step(s, a), family) <==> RevokesFamily(s, a, family) || ExpiresFamily(s, a, family)
    ensures RotationStep(s, a) ==> !Dead(Step(s, a), family)
  {
    ChainsGrow(s, a, family);
    if RotationStep(s, a) {
      RotationsConserve(s, a, family);
      assert |LiveTokens(Step(s, a), family)| > 0;
    } else if a.Commit? && ProcOf(s, a.p).phase.Swept? {
      SweptLeaves(s, a.p, family);
    } else if a.DeleteExpired? {
      CleanupLeaves(s, a.cutoff, family);
    } else {
      var t :| t in LiveTokens(s, family);
      assert t in LiveTokens(Step(s, a), family);
    }
  }

  lemma CleanupLeaves(s: System, cutoff: Time, family: Id)
    ensures var expired := ExpiredBefore(s.rows, cutoff);
            LiveTokens(Step(s, DeleteExpired(cutoff)), family) ==
            if forall q :: q in s.procs ==> s.procs[q].pending.Keys !! expired
            then LiveTokens(s, family) - expired
            else LiveTokens(s, family)
  {
  }

  // ---- Explicit revocation ------------------------------------------------------------- //

  predicate ActsAs(a: Action, p: Id) {
    match a
    case Login(_, _, _, _) => false
    case DeleteExpired(_) => false
    case Tick(_) => false
    case _ => a.p == p
  }

  /** What may have happened since an earlier state in which p had picked its rows. */
  ghost predicate Since(s: System, later: System, p: Id) {
    && (forall f :: f in s.chains ==> f in later.chains && s.chains[f] <= later.chains[f])
    && (forall t :: t in later.rows ==> t in s.rows || !InChains(s, t))
    && p in s.procs && p in later.procs && later.procs[p] == s.procs[p]
  }

  lemma StepKeepsSince(s: System, later: System, a: Action, p: Id)
    requires Inv(later) && Since(s, later, p) && !ActsAs(a, p)
    ensures Since(s, Step(later, a), p)
  {
    var next := Step(later, a);
    OthersUntouched(later, a, p);
    forall f | f in s.chains ensures f in next.chains && s.chains[f] <= next.chains[f] {
      ChainsGrow(later, a, f);
    }
    forall t | t in next.rows ensures t in s.rows || !InChains(s, t) {
      RowsOnlyAge(later, a, t);
      StillInChains(s, later, t);
    }
  }

  lemma StillInChains(s: System, later: System, t: Id)
    requires forall f :: f in s.chains ==> f in later.chains && s.chains[f] <= later.chains[f]
    ensures InChains(s, t) ==> InChains(later, t)
  {
    if InChains(s, t) {
      var f :| f in s.chains && t in s.chains[f];
      assert t in later.chains[f];
    }
  }

  lemma {:induction false} RunKeepsSince(s: System, later: System, actions: seq<Action>, p: Id)
    requires Inv(later) && Since(s, later, p) && forall a :: a in actions ==> !ActsAs(a, p)
    ensures Since(s, Run(later, actions), p)
    decreases |actions|
  {
    if actions != [] {
      StepKeepsInv(later, actions[0]);
      StepKeepsSince(s, later, actions[0], p);
      RunKeepsSince(s, Step(later, actions[0]), actions[1..], p);
    }
  }

  function FamilyRows(s: System, family: Id): set<Id> {
    set t | t in s.rows && s.rows[t].family == family
  }

  /** The family at the moment the revocation commits, against the rows it picked when it started. */
  lemma MissedIsNew(s: System, later: System, p: Id, family: Id)
    requires Inv(s) && Inv(later) && Since(s, later, p) && family in s.chains
    requires s.procs[p].phase.Sweeping? && s.procs[p].phase.targets <= s.rows.Keys
    requires FamilyRows(s, family) <= s.procs[p].phase.targets && !Dead(later, family)
    ensures LiveTokens(later, family) <= s.procs[p].phase.targets <==> later.chains[family] == s.chains[family]
  {
    var t :| t in LiveTokens(later, family);
    forall u | u in LiveTokens(later, family) ensures u == t {
      LiveIsLast(later, family, u);
      LiveIsLast(later, family, t);
    }
    LiveIsLast(later, family, t);
    if later.chains[family] == s.chains[family] {
      assert InChains(s, t);
      assert t in s.rows && OnChain(s, t);
    } else {
      if t in s.rows {
        assert OnChain(s, t);
        var f := s.rows[t].family;
        assert t in later.chains[f];
        assert f == family;
        NewLastIsNew(s.chains[family], later.chains[family]);
      }
    }
  }

  lemma NewLastIsNew(before: seq<Id>, after: seq<Id>)
    requires before <= after && before != after && NoDuplicates(after) && after != []
    ensures Last(after) !in before
  {
    assert forall i :: 0 <= i < |before| ==> before[i] == after[i] && i < |after| - 1;
  }

  /**
   A revocation that goes to the token rows alone ends the family if and only
   if no rotation of that family commits while it runs, or the family was dead
   by then anyway: the statement picks its rows when it starts, waits for a
   rotation in flight, and misses the successor that rotation brings in.
  */
  lemma RevocationEndsFamily(s: System, p: Id, target: Target, family: Id, between: seq<Action>)
    requires Inv(s) && ProcOf(s, p).phase.Idle? && family in s.chains
    requires FamilyRows(s, family) <= Matching(s.rows, target)
    requires forall a :: a in between ==> !ActsAs(a, p)
    requires Free(Run(Step(s, StartRevocation(p, target)), between), p, Matching(s.rows, target))
    ensures var before := Run(Step(s, StartRevocation(p, target)), between);
            var after := Step(Step(before, FinishRevocation(p)), Commit(p));
            && family in before.chains
            && (Dead(after, family) <==> Dead(before, family) || before.chains[family] == s.chains[family])
  {
    var picked := Step(s, StartRevocation(p, target));
    StepKeepsInv(s, StartRevocation(p, target));
    RunKeepsInv(picked, between);
    RunKeepsSince(picked, picked, between, p);
    RevocationFrom(picked, Run(picked, between), p, family);
  }

  lemma RevocationFrom(picked: System, before: System, p: Id, family: Id)
    requires Inv(picked) && Inv(before) && Since(picked, before, p) && family in picked.chains
    requires picked.procs[p].phase.Sweeping? && Free(before, p, picked.procs[p].phase.targets)
    requires FamilyRows(picked, family) <= picked.procs[p].phase.targets <= picked.rows.Keys
    ensures var after := Step(Step(before, FinishRevocation(p)), Commit(p));
            Dead(after, family) <==> Dead(before, family) || before.chains[family] == picked.chains[family]
  {
    FinishedLeaves(before, p, family);
    if !Dead(before, family) {
      MissedIsNew(picked, before, p, family);
    }
  }

  lemma FinishedLeaves(s: System, p: Id, family: Id)
    requires Inv(s) && ProcOf(s, p).phase.Sweeping? && Free(s, p, ProcOf(s, p).phase.targets) && family in s.chains
    ensures var after := Step(Step(s, FinishRevocation(p)), Commit(p));
            && family in after.chains
            && LiveTokens(after, family) == LiveTokens(s, family) - ProcOf(s, p).phase.targets
  {
    var written := Step(s, FinishRevocation(p));
    StepKeepsInv(s, FinishRevocation(p));
    SweptLeaves(written, p, family);
    SameRowsSameLive(s, written, family);
    ChainsGrow(written, Commit(p), family);
    assert written.procs[p].pending.Keys == ProcOf(s, p).phase.targets * s.rows.Keys;
  }

  /**
   A logout marks the presented token and no other.  It ends the family if and
   only if that token is the family's live one when the logout writes it, or
   the family was dead by then anyway.
  */
  lemma LogoutEndsFamily(s: System, p: Id, token: Id, between: seq<Action>)
    requires Inv(s) && ProcOf(s, p).phase.Idle? && token in s.rows
    requires forall a :: a in between ==> !ActsAs(a, p)
    requires Free(Run(Step(s, StartRevocation(p, OfToken(token))), between), p, {token})
    ensures var (before, family) := (Run(Step(s, StartRevocation(p, OfToken(token))), between), s.rows[token].family);
            var after := Step(Step(before, FinishRevocation(p)), Commit(p));
            && family in before.chains
            && (Dead(after, family) <==> Dead(before, family) || LiveTokens(before, family) == {token})
  {
    var picked := Step(s, StartRevocation(p, OfToken(token)));
    assert Matching(s.rows, OfToken(token)) == {token};
    assert OnChain(s, token);
    StepKeepsInv(s, StartRevocation(p, OfToken(token)));
    RunKeepsInv(picked, between);
    RunKeepsSince(picked, picked, between, p);
    FinishedLeaves(Run(picked, between), p, s.rows[token].family);
  }

  /** A token can be exchanged up to its expiry and not after it, however long the request then takes. */
  lemma ExpiryDecidesAtTheRead(s: System, p: Id, token: Id, elapsed: nat)
    requires ProcOf(s, p).phase.Idle? && token in s.rows && !s.rows[token].used && !s.rows[token].revoked
    ensures var read := Step(Step(s, Tick(elapsed)), Read(p, token));
            && (ProcOf(read, p).phase.Ready? <==> s.now + elapsed <= s.rows[token].expires)
            && (ProcOf(read, p).phase.Ready? || ProcOf(read, p).phase.Idle?)
            && read.now == s.now + elapsed && read.rows == s.rows
  {
  }

  /** A revocation that runs undisturbed marks exactly the rows it asks for, and changes nothing else. */
  lemma RevocationIsExact(s: System, p: Id, target: Target, t: Id)
    requires Inv(s) && ProcOf(s, p).phase.Idle? && Free(s, p, Matching(s.rows, target)) && t in s.rows
    ensures var after := Step(Step(Step(s, StartRevocation(p, target)), FinishRevocation(p)), Commit(p)).rows;
            && after.Keys == s.rows.Keys
            && after[t]
               == if (match target
                      case OfFamily(family) => s.rows[t].family == family
                      case OfUser(user) => s.rows[t].user == user
                      case OfToken(token) => t == token)
                  then s.rows[t].(revoked := true) else s.rows[t]
  {
    var picked := Step(s, StartRevocation(p, target));
    assert Step(picked, FinishRevocation(p)).procs[p] == Process(Swept, Revoked(s.rows, Matching(s.rows, target)));
  }

  /** The cleanup deletes exactly the rows expired before its cutoff, and waits while any of them is locked. */
  lemma CleanupIsExact(s: System, cutoff: Time, t: Id)
    requires t in s.rows
    ensures var after := Step(s, DeleteExpired(cutoff)).rows;
            && (t in after ==> after[t] == s.rows[t])
            && (t !in after ==> s.rows[t].expires < cutoff)
            && ((forall q :: q in s.procs ==> s.procs[q].pending == map[]) && s.rows[t].expires < cutoff ==>
                  t !in after)
  {
  }

  /** Where live tokens come from: a login, or a rotation that commits its successor. */
  lemma NewLiveTokens(s: System, a: Action, family: Id)
    requires Inv(s) && !(LiveTokens(Step(s, a), family) <= LiveTokens(s, family))
    ensures a.Login? || (a.Commit? && ProcOf(s, a.p).phase.Issued? && ProcOf(s, a.p).phase.family == family)
  {
    var t :| t in LiveTokens(Step(s, a), family) && t !in LiveTokens(s, family);
    RowsOnlyAge(s, a, t);
    OnlyCommitsWrite(s, a);
    if a.Commit? {
      assert ProcOk(s, a.p);
    }
  }

  // ---- A run ------------------------------------------------------------------------------- //

  lemma RunCons(s: System, a: Action, rest: seq<Action>)
    ensures Run(s, [a] + rest) == Run(Step(s, a), rest)
  {
    assert ([a] + rest)[1..] == rest;
  }

  /** A login whose token 1 is exchanged for token 2. */
  function LoginAndRotate(): seq<Action> {
    [Login(1, 10, 5, 100), Read(1, 1), Claim(1), Issue(1, 2, 100), Commit(1)]
  }

  function AfterRotation(): System {
    System(map[1 := Row(10, 5, true, false, 100), 2 := Row(10, 5, false, false, 100)],
           map[1 := Process(Idle, map[])], map[10 := [1, 2]], 0)
  }

  /** Family 10 with its first token in flight: claimed, the successor issued, nothing committed. */
  function IssuedState(): System {
    System(map[1 := Row(10, 5, false, false, 100)],
           map[1 := Process(Issued(1, 10, 5, 2),
                            map[1 := Row(10, 5, true, false, 100), 2 := Row(10, 5, false, false, 100)])],
           map[10 := [1]], 0)
  }

  function LoggedIn(): System {
    System(map[1 := Row(10, 5, false, false, 100)], map[], map[10 := [1]], 0)
  }

  function TokenRead(): System {
    LoggedIn().(procs := map[1 := Process(Ready(1, 10, 5), map[])])
  }

  function TokenClaimed(): System {
    LoggedIn().(procs := map[1 := Process(Claimed(1, 10, 5), map[1 := Row(10, 5, true, false, 100)])])
  }

  lemma RotationSteps()
    ensures Step(Empty(0), Login(1, 10, 5, 100)) == LoggedIn()
    ensures Step(LoggedIn(), Read(1, 1)) == TokenRead()
    ensures Step(TokenRead(), Claim(1)) == TokenClaimed()
    ensures Step(TokenClaimed(), Issue(1, 2, 100)) == IssuedState()
  {
  }

  lemma IssuedIsReachable()
    ensures Run(Empty(0), [Login(1, 10, 5, 100), Read(1, 1), Claim(1), Issue(1, 2, 100)]) == IssuedState()
  {
    RotationSteps();
    RunCons(TokenClaimed(), Issue(1, 2, 100), []);
    RunCons(TokenRead(), Claim(1), [Issue(1, 2, 100)]);
    RunCons(LoggedIn(), Read(1, 1), [Claim(1), Issue(1, 2, 100)]);
    RunCons(Empty(0), Login(1, 10, 5, 100), [Read(1, 1), Claim(1), Issue(1, 2, 100)]);
  }

  lemma {:induction false} RunAppend(s: System, a: seq<Action>, b: seq<Action>)
    ensures Run(s, a + b) == Run(Run(s, a), b)
    decreases |a|
  {
    if a == [] {
      assert a + b == b;
    } else {
      assert (a + b)[1..] == a[1..] + b;
      RunAppend(Step(s, a[0]), a[1..], b);
    }
  }

  lemma RotatedIsReachable()
    ensures Run(Empty(0), LoginAndRotate()) == AfterRotation()
  {
    IssuedIsReachable();
    var start := [Login(1, 10, 5, 100), Read(1, 1), Claim(1), Issue(1, 2, 100)];
    assert LoginAndRotate() == start + [Commit(1)];
    RunAppend(Empty(0), start, [Commit(1)]);
    RunCons(IssuedState(), Commit(1), []);
    CommitAfterIssue(IssuedState().procs);
  }

  /** The commit of that rotation, whoever else is at work. */
  lemma CommitAfterIssue(procs: map<Id, Process>)
    requires 1 in procs && procs[1] == IssuedState().procs[1]
    ensures Step(IssuedState().(procs := procs), Commit(1))
            == AfterRotation().(procs := procs[1 := Process(Idle, map[])])
    ensures IssuedState().procs[1 := Process(Idle, map[])] == AfterRotation().procs
  {
    var rows := map[1 := Row(10, 5, false, false, 100)] + procs[1].pending;
    assert rows.Keys == {1, 2};
    assert rows == AfterRotation().rows;
    assert [1] + [2] == [1, 2];
    assert map[10 := [1]][10 := [1, 2]] == map[10 := [1, 2]];
  }

  /** A used token presented again after its rotation: the family keeps its live token, and it can still be claimed. */
  lemma ReuseGoesUnpunished()
    ensures var end := Run(Empty(0), LoginAndRotate() + [Read(2, 1), RevokeFamily(2), Rollback(2)]);
            LiveTokens(end, 10) == {2} && Claimable(end.rows, 2) && !Dead(end, 10)
  {
    var again := [Read(2, 1), RevokeFamily(2), Rollback(2)];
    RotatedIsReachable();
    RunAppend(Empty(0), LoginAndRotate(), again);
    ReuseChangesNothing(AfterRotation(), 2, 1);
    SameRowsSameLive(AfterRotation(), Run(AfterRotation(), again), 10);
    LiveAfterRotation();
  }

  lemma LiveAfterRotation()
    ensures LiveTokens(AfterRotation(), 10) == {2}
  {
  }

  // ---- The service, one request at a time ---------------------------------------------- //

  datatype Rotation = Invalid | ReuseDetected | Expired | LostRace | UserGone | Rotated(token: Id)

  /** What one rotation writes: the row is read in one table state and claimed in a possibly later one. */
  function RotateSpec(read: map<Id, Row>, atClaim: map<Id, Row>, token: Id, now: Time, userActive: bool,
                      successor: Id, expires: Time): (map<Id, Row>, Rotation)
  {
    if token !in read then (read, Invalid)
    else
      var row := read[token];
      if !row.Live() then (RevokeRows(read, row.family), ReuseDetected)
      else if row.expires < now then (read, Expired)
      else if !Claimable(atClaim, token) then (RevokeRows(atClaim, row.family), LostRace)
      else if !userActive then (ClaimRow(atClaim, token), UserGone)
      else (ClaimRow(atClaim, token)[successor := Row(row.family, row.user, false, false, expires)],
            Rotated(successor))
  }

  /** What others had committed when the outcome was decided. */
  function CommittedBy(read: map<Id, Row>, atClaim: map<Id, Row>, r: Rotation): map<Id, Row> {
    if r.Invalid? || r.ReuseDetected? || r.Expired? then read else atClaim
  }

  /** The repository inside one request: the committed table, and the table as the request's own writes leave it. */
  class RefreshTokenRepository {
    var committed: map<Id, Row>
    var rows: map<Id, Row>

    constructor (committed: map<Id, Row>)
      ensures this.committed == committed && rows == committed
    {
      this.committed, rows := committed, committed;
    }

    method Create(token: Id, family: Id, user: Id, expires: Time)
      requires token !in rows
      modifies this`rows
      ensures rows == old(rows)[token := Row(family, user, false, false, expires)]
    {
      rows := rows[token := Row(family, user, false, false, expires)];
    }

    method MarkUsedAtomic(token: Id) returns (claimed: bool)
      modifies this`rows
      ensures claimed <==> token in old(rows) && !old(rows)[token].used && !old(rows)[token].revoked
      ensures rows == if claimed then old(rows)[token := old(rows)[token].(used := true)] else old(rows)
    {
      claimed := token in rows && !rows[token].used && !rows[token].revoked;
      if claimed {
        rows := rows[token := rows[token].(used := true)];
      }
    }

    method RevokeFamily(family: Id)
      modifies this`rows
      ensures rows == RevokeRows(old(rows), family)
      ensures rows.Keys == old(rows).Keys
      ensures forall t :: t in rows ==>
                rows[t] == if old(rows)[t].family == family then old(rows)[t].(revoked := true) else old(rows)[t]
    {
      rows := rows + Revoked(rows, Matching(rows, OfFamily(family)));
    }

    method DeleteExpired(now: Time, graceDays: nat) returns (deleted: nat)
      modifies this`rows
      ensures forall t :: t in rows <==> t in old(rows) && old(rows)[t].expires >= now - graceDays * DAY
      ensures forall t :: t in rows ==> rows[t] == old(rows)[t]
      ensures deleted == |old(rows)| - |rows|
    {
      var kept := rows - ExpiredBefore(rows, now - graceDays * DAY);
      assert kept.Keys <= rows.Keys;
      SubsetSize(kept.Keys, rows.Keys);
      deleted := |rows| - |kept|;
      rows := kept;
    }

    /**
     rotate_refresh_token.  Other requests may have committed by the time of
     the claim; atClaim is what they left.
    */
    method RotateRefreshToken(token: Id, now: Time, userActive: bool, successor: Id, expires: Time,
                              atClaim: map<Id, Row>)
      returns (r: Rotation)
      requires successor !in atClaim && rows == committed
      modifies this
      ensures (rows, r) == RotateSpec(old(rows), atClaim, token, now, userActive, successor, expires)
      ensures committed == CommittedBy(old(committed), atClaim, r)
      ensures r == Invalid <==> token !in old(rows)
      ensures r == ReuseDetected <==> token in old(rows) && (old(rows)[token].used || old(rows)[token].revoked)
      ensures r == Expired <==>
                token in old(rows) && !old(rows)[token].used && !old(rows)[token].revoked
                && old(rows)[token].expires < now
      ensures r == LostRace || r == UserGone || r.Rotated? <==>
                token in old(rows) && !old(rows)[token].used && !old(rows)[token].revoked
                && now <= old(rows)[token].expires
      ensures r == UserGone || r.Rotated? ==>
                token in atClaim && !atClaim[token].used && !atClaim[token].revoked
      ensures r == LostRace ==> token !in atClaim || atClaim[token].used || atClaim[token].revoked
      ensures r == UserGone ==> !userActive && rows == atClaim[token := atClaim[token].(used := true)]
      ensures r.Rotated? ==> userActive && r.token == successor
    {
      if token !in rows {
        return Invalid;
      }
      var row := rows[token];
      if row.used || row.revoked {
        RevokeFamily(row.family);
        return ReuseDetected;
      }
      if row.expires < now {
        return Expired;
      }
      committed, rows := atClaim, atClaim;
      var claimed := MarkUsedAtomic(token);
      if !claimed {
        RevokeFamily(row.family);
        return LostRace;
      }
      if !userActive {
        return UserGone;
      }
      Create(successor, row.family, row.user, expires);
      return Rotated(successor);
    }

    /** The refresh endpoint under its session: a new pair is committed, and every refusal rolled back. */
    method RefreshAccessToken(token: Id, now: Time, userActive: bool, successor: Id, expires: Time,
                              atClaim: map<Id, Row>)
      returns (r: Rotation)
      requires successor !in atClaim && rows == committed
      modifies this
      ensures r == RotateSpec(old(rows), atClaim, token, now, userActive, successor, expires).1
      ensures r.Rotated? <==>
                && token in old(rows) && !old(rows)[token].used && !old(rows)[token].revoked
                && now <= old(rows)[token].expires
                && token in atClaim && !atClaim[token].used && !atClaim[token].revoked
                && userActive
      ensures !r.Rotated? ==> committed == CommittedBy(old(committed), atClaim, r)
      ensures !r.Rotated? ==> committed == old(committed) || committed == atClaim
      ensures r.Rotated? ==>
                && r.token == successor
                && committed == atClaim[token := atClaim[token].(used := true)]
                     [successor := Row(old(rows)[token].family, old(rows)[token].user, false, false, expires)]
      ensures rows == committed
    {
      r := RotateRefreshToken(token, now, userActive, successor, expires, atClaim);
      if r.Rotated? {
        committed := rows;
      } else {
        rows := committed;
      }
    }
  }

  /**
   A rotation of the machine writes and commits exactly what the service
   does, whatever others committed between its read and its claim.
  */
  lemma RotationMatchesMachine(s: System, later: System, p: Id, token: Id, userActive: bool, successor: Id,
                               expires: Time)
    requires Inv(later) && ProcOf(s, p).phase.Idle? && ProcOf(later, p) == Process(AfterRead(s, token), map[])
    requires NewToken(later, successor) && Free(later, p, {token})
    ensures var (rows, r) := RotateSpec(s.rows, later.rows, token, s.now, userActive, successor, expires);
            match r
            case Invalid => ProcOf(Step(s, Read(p, token)), p).phase.Idle?
            case Expired => ProcOf(Step(s, Read(p, token)), p).phase.Idle?
            case ReuseDetected => RevokesAndRaises(Step(s, Read(p, token)), p, rows)
            case LostRace => RevokesAndRaises(Step(later, Claim(p)), p, rows)
            case Rotated(t) => userActive && t == successor && IssuesAndCommits(later, p, successor, expires, rows)
            case UserGone => !userActive && RejectsAndRaises(later, p, rows)
  {
    if token in s.rows && !s.rows[token].Live() {
      ReuseRaises(s, p, token);
    } else if token in s.rows && AfterRead(s, token).Ready? {
      if !Claimable(later.rows, token) {
        LostRaceRaises(later, p);
      } else if userActive {
        assert ProcOk(later, p) && OnChain(later, token);
        RotationCommits(later, p, successor, expires);
      } else {
        RejectionRaises(later, p);
      }
    }
  }

  lemma ReuseRaises(s: System, p: Id, token: Id)
    requires ProcOf(s, p).phase.Idle? && token in s.rows && !s.rows[token].Live()
    ensures RevokesAndRaises(Step(s, Read(p, token)), p, RevokeRows(s.rows, s.rows[token].family))
  {
    assert Step(s, Read(p, token)) == SetProc(s, p, MustRevoke(s.rows[token].family), map[]);
  }

  lemma LostRaceRaises(s: System, p: Id)
    requires ProcOf(s, p).phase.Ready? && Free(s, p, {ProcOf(s, p).phase.token})
    requires !Claimable(s.rows, ProcOf(s, p).phase.token)
    ensures RevokesAndRaises(Step(s, Claim(p)), p, RevokeRows(s.rows, ProcOf(s, p).phase.family))
  {
    assert Step(s, Claim(p)) == SetProc(s, p, MustRevoke(ProcOf(s, p).phase.family), map[]);
  }

  /** The request must revoke its family; what that writes, over what is committed, are the given rows. */
  ghost predicate RevokesAndRaises(s: System, p: Id, rows: map<Id, Row>) {
    && ProcOf(s, p).phase.MustRevoke?
    && (Free(s, p, Matching(s.rows, OfFamily(ProcOf(s, p).phase.family))) ==>
          var raised := Step(s, RevokeFamily(p));
          Refused(raised, p) && s.rows + raised.procs[p].pending == rows)
  }

  /** Claim, issue and commit leave the given rows. */
  ghost predicate IssuesAndCommits(s: System, p: Id, successor: Id, expires: Time, rows: map<Id, Row>) {
    Step(Step(Step(s, Claim(p)), Issue(p, successor, expires)), Commit(p)).rows == rows
  }

  /** A claim whose user turns out to be gone has written the given rows; rolled back, nothing is left of them. */
  ghost predicate RejectsAndRaises(s: System, p: Id, rows: map<Id, Row>) {
    var raised := Step(Step(s, Claim(p)), RejectUser(p));
    && Refused(raised, p) && s.rows + ProcOf(raised, p).pending == rows
    && Step(raised, Rollback(p)).rows == s.rows
    && ProcOf(Step(raised, Rollback(p)), p) == Process(Idle, map[])
  }

  lemma RejectionRaises(s: System, p: Id)
    requires ProcOf(s, p).phase.Ready? && Free(s, p, {ProcOf(s, p).phase.token})
    requires Claimable(s.rows, ProcOf(s, p).phase.token)
    ensures RejectsAndRaises(s, p, ClaimRow(s.rows, ProcOf(s, p).phase.token))
  {
    var token := ProcOf(s, p).phase.token;
    assert s.rows + map[token := s.rows[token].(used := true)] == ClaimRow(s.rows, token);
  }

  lemma RotationCommits(s: System, p: Id, successor: Id, expires: Time)
    requires Inv(s) && ProcOf(s, p).phase.Ready?
    requires NewToken(s, successor) && Free(s, p, {ProcOf(s, p).phase.token})
    requires Claimable(s.rows, ProcOf(s, p).phase.token)
    ensures var phase := ProcOf(s, p).phase;
            Step(Step(Step(s, Claim(p)), Issue(p, successor, expires)), Commit(p)).rows
            == ClaimRow(s.rows, phase.token)[successor := Row(phase.family, phase.user, false, false, expires)]
  {
    var phase := ProcOf(s, p).phase;
    assert ProcOk(s, p);
    var claim := map[phase.token := s.rows[phase.token].(used := true)];
    assert Step(s, Claim(p)) == SetProc(s, p, Claimed(phase.token, phase.family, phase.user), claim);
    IssueAfterClaim(s, p, successor, expires);
    CommitWrites(s, p, phase.token, phase.family, phase.user, successor, expires);
  }

  lemma CommitWrites(s: System, p: Id, token: Id, family: Id, user: Id, successor: Id, expires: Time)
    requires token in s.rows && s.rows[token].Live() && family in s.chains
    ensures var (claim, row) := (map[token := s.rows[token].(used := true)], Row(family, user, false, false, expires));
            var issued := SetProc(s, p, Issued(token, family, user, successor), claim[successor := row]);
            Step(issued, Commit(p)).rows == ClaimRow(s.rows, token)[successor := row]
  {
    var (claim, row) := (map[token := s.rows[token].(used := true)], Row(family, user, false, false, expires));
    assert s.rows + claim[successor := row] == ClaimRow(s.rows, token)[successor := row];
  }

  lemma IssueAfterClaim(s: System, p: Id, successor: Id, expires: Time)
    requires ProcOf(s, p).phase.Ready? && NewToken(s, successor) && ProcOf(s, p).phase.token in s.rows
    ensures var phase := ProcOf(s, p).phase;
            var claim := map[phase.token := s.rows[phase.token].(used := true)];
            Step(SetProc(s, p, Claimed(phase.token, phase.family, phase.user), claim), Issue(p, successor, expires))
            == SetProc(s, p, Issued(phase.token, phase.family, phase.user, successor),
                       claim[successor := Row(phase.family, phase.user, false, false, expires)])
  {
    var phase := ProcOf(s, p).phase;
    var claim := map[phase.token := s.rows[phase.token].(used := true)];
    var s1 := SetProc(s, p, Claimed(phase.token, phase.family, phase.user), claim);
    assert NewToken(s1, successor);
    var issued := Process(Issued(phase.token, phase.family, phase.user, successor),
        claim[successor := Row(phase.family, phase.user, false, false, expires)]);
    assert s1.procs[p := issued] == s.procs[p := issued];
  }

  /** A whole rotation by q. */
  function WholeRotation(s: System, q: Id, token: Id, successor: Id, expires: Time): System {
    Step(Step(Step(Step(s, Read(q, token)), Claim(q)), Issue(q, successor, expires)), Commit(q))
  }

  /** One that nobody is in the way of goes through: its successor becomes the family's only live token. */
  lemma RotationGoesThrough(s: System, q: Id, token: Id, successor: Id, expires: Time)
    requires Inv(s) && ProcOf(s, q).phase.Idle? && Free(s, q, {token}) && NewToken(s, successor)
    requires token in s.rows && s.rows[token].Live() && s.now <= s.rows[token].expires
    ensures var end := WholeRotation(s, q, token, successor, expires);
            Inv(end) && LiveTokens(end, s.rows[token].family) == {successor}
  {
    var read := Step(s, Read(q, token));
    assert read == SetProc(s, q, Ready(token, s.rows[token].family, s.rows[token].user), map[]);
    assert NewToken(read, successor);
    StepKeepsInv(s, Read(q, token));
    RotationCommits(read, q, successor, expires);
    WholeRotationKeepsInv(s, q, token, successor, expires);
    OnlyLiveToken(WholeRotation(s, q, token, successor, expires), successor);
  }

  lemma WholeRotationKeepsInv(s: System, q: Id, token: Id, successor: Id, expires: Time)
    requires Inv(s)
    ensures Inv(WholeRotation(s, q, token, successor, expires))
  {
    var s1 := Step(s, Read(q, token));
    var s2 := Step(s1, Claim(q));
    StepKeepsInv(s, Read(q, token));
    StepKeepsInv(s1, Claim(q));
    StepKeepsInv(s2, Issue(q, successor, expires));
    StepKeepsInv(Step(s2, Issue(q, successor, expires)), Commit(q));
  }

  lemma OnlyLiveToken(s: System, token: Id)
    requires Inv(s) && token in s.rows && s.rows[token].Live()
    ensures LiveTokens(s, s.rows[token].family) == {token}
  {
    var family := s.rows[token].family;
    forall t | t in LiveTokens(s, family) ensures t == token {
      LiveIsLast(s, family, t);
      LiveIsLast(s, family, token);
    }
  }

  lemma RotationLeavesOthers(s: System, q: Id, token: Id, successor: Id, expires: Time, p: Id)
    requires p != q
    ensures ProcOf(WholeRotation(s, q, token, successor, expires), p) == ProcOf(s, p)
  {
    var s1 := Step(s, Read(q, token));
    var s2 := Step(s1, Claim(q));
    OthersStand(s, Read(q, token), p);
    OthersStand(s1, Claim(q), p);
    OthersStand(s2, Issue(q, successor, expires), p);
    OthersStand(Step(s2, Issue(q, successor, expires)), Commit(q), p);
  }

  lemma RotationEndsIdle(s: System, q: Id, token: Id, successor: Id, expires: Time)
    requires Inv(s) && ProcOf(s, q).phase.Idle? && Free(s, q, {token}) && NewToken(s, successor)
    requires token in s.rows && s.rows[token].Live() && s.now <= s.rows[token].expires
    ensures ProcOf(WholeRotation(s, q, token, successor, expires), q) == Process(Idle, map[])
  {
    assert OnChain(s, token);
    var s1 := Step(s, Read(q, token));
    var s2 := Step(s1, Claim(q));
    assert NewToken(s2, successor);
    assert ProcOf(Step(s2, Issue(q, successor, expires)), q).phase.Issued?;
  }
}
