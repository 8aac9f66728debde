/**
 Concurrent bookings: every booking transaction takes the detailer's advisory
 lock, counts overlapping rows, inserts and commits.  The machine interleaves
 any number of such transactions with status changes and soft deletes.
*/
module Booking {
  import opened Support
  import opened AppointmentModel

  // ---- The advisory-lock key ---------------------------------------- //

  /** Big-endian value of a byte string. */
  function BigEndian(bytes: seq<byte>): (n: nat) {
    if bytes == [] then 0 else 256 * BigEndian(bytes[..|bytes| - 1]) + bytes[|bytes| - 1]
  }

  function Pow256(n: nat): nat {
    if n == 0 then 1 else 256 * Pow256(n - 1)
  }

  /** First eight bytes of the UUID, read as a signed big-endian 64-bit integer. */
  function LockKey(detailer: Uuid): int {
    var n := BigEndian(detailer[..8]);
    if n < 0x8000_0000_0000_0000 then n else n - 0x1_0000_0000_0000_0000
  }

  lemma {:induction false} BigEndianBound(bytes: seq<byte>)
    ensures BigEndian(bytes) < Pow256(|bytes|)
  {
    if bytes != [] {
      BigEndianBound(bytes[..|bytes| - 1]);
    }
  }

  lemma {:induction false} BigEndianInjective(a: seq<byte>, b: seq<byte>)
    requires |a| == |b| && BigEndian(a) == BigEndian(b)
    ensures a == b
  {
    if a != [] {
      var n := |a| - 1;
      BigEndianInjective(a[..n], b[..n]);
      assert a == a[..n] + [a[n]] && b == b[..n] + [b[n]];
    }
  }

  lemma PrefixFits(detailer: Uuid)
    ensures BigEndian(detailer[..8]) < 0x1_0000_0000_0000_0000
  {
    BigEndianBound(detailer[..8]);
    assert Pow256(4) == 0x1_0000_0000;
    assert Pow256(8) == 0x1_0000_0000_0000_0000;
  }

  /** The key fits a PostgreSQL bigint, and two detailers share it exactly when their first eight bytes agree. */
  lemma LockKeyIsPrefix(u: Uuid, v: Uuid)
    ensures -0x8000_0000_0000_0000 <= LockKey(u) < 0x8000_0000_0000_0000
    ensures LockKey(u) == LockKey(v) <==> u[..8] == v[..8]
  {
    PrefixFits(u);
    PrefixFits(v);
    if LockKey(u) == LockKey(v) {
      BigEndianInjective(u[..8], v[..8]);
    }
  }

  // ---- The machine --------------------------------------------------- //

  /** What a booking asks for once its price and duration are known. */
  datatype Request = Request(client: Uuid, detailer: Uuid, start: Time, end: Time, price: nat)

  function NewRow(r: Request): Appointment {
    Appointment(r.client, Some(r.detailer), r.start, Some(r.end), Pending, false,
                r.price, None, NoIntent, None, None, None)
  }

  /** Where a booking transaction stands.  All phases but Idle hold the lock. */
  datatype Phase =
    | Idle
    | Locked(req: Request)
    | Clear(req: Request)
    | Refused(req: Request)
    | Inserted(req: Request, id: Id)

  datatype System = System(table: map<Id, Appointment>, procs: map<Id, Phase>)

  datatype Action =
    | Lock(p: Id, req: Request)
    | Count(p: Id)
    | Insert(p: Id, id: Id)
    | Commit(p: Id)
    | Rollback(p: Id)
    | Transition(id: Id, to: Status)
    | SoftDelete(id: Id)

  function PhaseOf(s: System, p: Id): Phase {
    if p in s.procs then s.procs[p] else Idle
  }

  /** Two detailers contend when their keys coincide; the ideal lock is per detailer. */
  predicate SameLock(ideal: bool, u: Uuid, v: Uuid) {
    if ideal then u == v else LockKey(u) == LockKey(v)
  }

  predicate LockFree(ideal: bool, s: System, d: Uuid) {
    forall q :: q in s.procs && !s.procs[q].Idle? ==> !SameLock(ideal, s.procs[q].req.detailer, d)
  }

  predicate FreshId(s: System, id: Id) {
    id !in s.table && forall q :: q in s.procs && s.procs[q].Inserted? ==> s.procs[q].id != id
  }

  function SetPhase(s: System, p: Id, phase: Phase): System {
    s.(procs := s.procs[p := phase])
  }

  /** One atomic step; an action that is blocked or makes no sense leaves the system alone. */
  function Step(ideal: bool, s: System, a: Action): System {
    match a
    case Lock(p, req) =>
      if PhaseOf(s, p).Idle? && LockFree(ideal, s, req.detailer) then SetPhase(s, p, Locked(req)) else s
    case Count(p) =>
      var phase := PhaseOf(s, p);
      if !phase.Locked? then s
      else if |Conflicts(s.table, phase.req.detailer, phase.req.start, phase.req.end)| > 0
      then SetPhase(s, p, Refused(phase.req))
      else SetPhase(s, p, Clear(phase.req))
    case Insert(p, id) =>
      var phase := PhaseOf(s, p);
      if phase.Clear? && FreshId(s, id) then SetPhase(s, p, Inserted(phase.req, id)) else s
    case Commit(p) =>
      var phase := PhaseOf(s, p);
      if phase.Inserted?
      then System(s.table[phase.id := NewRow(phase.req)], s.procs[p := Idle])
      else s
    case Rollback(p) => SetPhase(s, p, Idle)
    case Transition(id, to) =>
      if id in s.table && !s.table[id].deleted && Edge(s.table[id].status, to)
      then s.(table := s.table[id := s.table[id].(status := to)])
      else s
    case SoftDelete(id) =>
      if id in s.table then s.(table := s.table[id := s.table[id].(deleted := true)]) else s
  }

  function Run(ideal: bool, s: System, actions: seq<Action>): System
    decreases |actions|
  {
    if actions == [] then s else Run(ideal, Step(ideal, s, actions[0]), actions[1..])
  }

  const EMPTY := System(map[], map[])

  // ---- Safety --------------------------------------------------------- //

  /** No instant is reserved by two appointments of one detailer, deleted and terminal ones aside. */
  ghost predicate NoDoubleBooking(table: map<Id, Appointment>) {
    forall i, j, t ::
      (i in table && j in table && i != j
       && table[i].detailer.Some? && table[i].detailer == table[j].detailer
       && !table[i].deleted && !table[j].deleted
       && table[i].status !in {CancelledByClient, CancelledByDetailer, NoShow, NoDetailerFound}
       && table[j].status !in {CancelledByClient, CancelledByDetailer, NoShow, NoDetailerFound}) ==>
      !(Occupies(table[i], t) && Occupies(table[j], t))
  }

  /** The pairwise form the overlap query preserves. */
  ghost predicate PairwiseClear(table: map<Id, Appointment>) {
    forall i, j, d ::
      i in table && j in table && i != j && Active(table[i], d) && Active(table[j], d) ==>
      !table[j].bufferEnd.Some? || !Overlaps(table[i], table[j].scheduledTime, table[j].bufferEnd.value)
  }

  ghost predicate WindowClear(table: map<Id, Appointment>, r: Request) {
    forall i :: i in table ==> !Conflicting(table[i], r.detailer, r.start, r.end)
  }

  ghost predicate Exclusive(s: System) {
    forall p, q ::
      p in s.procs && q in s.procs && p != q && !s.procs[p].Idle? && !s.procs[q].Idle? ==>
      s.procs[p].req.detailer != s.procs[q].req.detailer
  }

  ghost predicate Inv(s: System) {
    && PairwiseClear(s.table)
    && Exclusive(s)
    && (forall p :: p in s.procs && (s.procs[p].Clear? || s.procs[p].Inserted?) ==>
          WindowClear(s.table, s.procs[p].req))
    && (forall p :: p in s.procs && s.procs[p].Inserted? ==> s.procs[p].id !in s.table)
    && (forall p, q :: p in s.procs && q in s.procs && p != q && s.procs[p].Inserted? && s.procs[q].Inserted? ==>
          s.procs[p].id != s.procs[q].id)
  }

  /** Which rows the count finds, read off the rows themselves. */
  lemma ConflictRows(table: map<Id, Appointment>, d: Uuid, start: Time, end: Time, id: Id)
    ensures id in Conflicts(table, d, start, end) <==>
              && id in table && table[id].detailer == Some(d) && !table[id].deleted
              && table[id].status !in {CancelledByClient, CancelledByDetailer, NoShow, NoDetailerFound}
              && table[id].bufferEnd.Some?
              && table[id].scheduledTime < end && start < table[id].bufferEnd.value
  {
  }

  /**
   The count is zero exactly when no row of the detailer that is neither
   deleted nor terminal has a window that meets the requested one.
  */
  lemma CountZero(table: map<Id, Appointment>, r: Request)
    ensures |Conflicts(table, r.detailer, r.start, r.end)| == 0 <==> WindowClear(table, r)
    ensures |Conflicts(table, r.detailer, r.start, r.end)| == 0 <==>
              forall i :: i in table ==>
                || table[i].detailer != Some(r.detailer) || table[i].deleted
                || table[i].status in {CancelledByClient, CancelledByDetailer, NoShow, NoDetailerFound}
                || table[i].bufferEnd.None?
                || r.end <= table[i].scheduledTime || table[i].bufferEnd.value <= r.start
  {
    var c := Conflicts(table, r.detailer, r.start, r.end);
    if WindowClear(table, r) {
      assert c == {};
    }
    if |c| == 0 {
      assert c == {};
      forall i | i in table ensures !Conflicting(table[i], r.detailer, r.start, r.end) {
        assert i !in c;
      }
    }
  }

  lemma CommitKeepsInv(ideal: bool, s: System, p: Id)
    requires Inv(s) && PhaseOf(s, p).Inserted?
    ensures Inv(Step(ideal, s, Commit(p)))
  {
    var req, id := s.procs[p].req, s.procs[p].id;
    var s' := Step(ideal, s, Commit(p));
    forall q | q in s'.procs && (s'.procs[q].Clear? || s'.procs[q].Inserted?)
      ensures WindowClear(s'.table, s'.procs[q].req)
    {
      assert q != p && s.procs[q].req.detailer != req.detailer;
    }
  }

  /** A row may leave the active set but never enters it again. */
  lemma UpdateKeepsInv(s: System, id: Id, row: Appointment)
    requires Inv(s) && id in s.table
    requires row.scheduledTime == s.table[id].scheduledTime && row.bufferEnd == s.table[id].bufferEnd
    requires forall d :: Active(row, d) ==> Active(s.table[id], d)
    ensures Inv(s.(table := s.table[id := row]))
  {
    var table' := s.table[id := row];
    forall p | p in s.procs && (s.procs[p].Clear? || s.procs[p].Inserted?)
      ensures WindowClear(table', s.procs[p].req)
    {
      assert WindowClear(s.table, s.procs[p].req);
    }
  }

  lemma LockKeepsInv(ideal: bool, s: System, p: Id, req: Request)
    requires Inv(s)
    ensures Inv(Step(ideal, s, Lock(p, req)))
  {
  }

  lemma CountKeepsInv(ideal: bool, s: System, p: Id)
    requires Inv(s)
    ensures Inv(Step(ideal, s, Count(p)))
  {
    if PhaseOf(s, p).Locked? {
      CountZero(s.table, s.procs[p].req);
    }
  }

  lemma InsertKeepsInv(ideal: bool, s: System, p: Id, id: Id)
    requires Inv(s)
    ensures Inv(Step(ideal, s, Insert(p, id)))
  {
  }

  lemma StepKeepsInv(ideal: bool, s: System, a: Action)
    requires Inv(s)
    ensures Inv(Step(ideal, s, a))
  {
    match a
    case Lock(p, req) => LockKeepsInv(ideal, s, p, req);
    case Count(p) => CountKeepsInv(ideal, s, p);
    case Insert(p, id) => InsertKeepsInv(ideal, s, p, id);
    case Commit(p) =>
      if PhaseOf(s, p).Inserted? {
        CommitKeepsInv(ideal, s, p);
      }
    case Rollback(p) => assert Exclusive(SetPhase(s, p, Idle));
    case Transition(id, to) =>
      if id in s.table && !s.table[id].deleted && Edge(s.table[id].status, to) {
        UpdateKeepsInv(s, id, s.table[id].(status := to));
      }
    case SoftDelete(id) =>
      if id in s.table {
        UpdateKeepsInv(s, id, s.table[id].(deleted := true));
      }
  }

  lemma {:induction false} RunKeepsInv(ideal: bool, s: System, actions: seq<Action>)
    requires Inv(s)
    ensures Inv(Run(ideal, s, actions))
    decreases |actions|
  {
    if actions != [] {
      StepKeepsInv(ideal, s, actions[0]);
      RunKeepsInv(ideal, Step(ideal, s, actions[0]), actions[1..]);
    }
  }

  lemma PairwiseClearIsDisjoint(table: map<Id, Appointment>)
    requires PairwiseClear(table)
    ensures NoDoubleBooking(table)
  {
    forall i, j, t |
      (i in table && j in table && i != j
       && table[i].detailer.Some? && table[i].detailer == table[j].detailer
       && !table[i].deleted && !table[j].deleted
       && table[i].status !in {CancelledByClient, CancelledByDetailer, NoShow, NoDetailerFound}
       && table[j].status !in {CancelledByClient, CancelledByDetailer, NoShow, NoDetailerFound})
      ensures !(Occupies(table[i], t) && Occupies(table[j], t))
    {
      var d := table[i].detailer.value;
      assert Active(table[i], d) && Active(table[j], d);
    }
  }

  /** Whatever the interleaving, no reachable state double-books a detailer. */
  lemma NeverDoubleBooked(actions: seq<Action>)
    ensures NoDoubleBooking(Run(false, EMPTY, actions).table)
  {
    RunKeepsInv(false, EMPTY, actions);
    PairwiseClearIsDisjoint(Run(false, EMPTY, actions).table);
  }

  /**
   The same over the fields: two rows of one detailer, neither deleted nor in
   one of the four terminal statuses, never share an instant.
  */
  lemma NoSharedInstant(actions: seq<Action>, i: Id, j: Id, t: Time)
    ensures var table := Run(false, EMPTY, actions).table;
            (i in table && j in table && i != j
             && table[i].detailer.Some? && table[i].detailer == table[j].detailer
             && !table[i].deleted && !table[j].deleted
             && table[i].status !in {CancelledByClient, CancelledByDetailer, NoShow, NoDetailerFound}
             && table[j].status !in {CancelledByClient, CancelledByDetailer, NoShow, NoDetailerFound}
             && table[i].bufferEnd.Some? && table[j].bufferEnd.Some?) ==>
            !(table[i].scheduledTime <= t < table[i].bufferEnd.value
              && table[j].scheduledTime <= t < table[j].bufferEnd.value)
  {
    NeverDoubleBooked(actions);
    var table := Run(false, EMPTY, actions).table;
    assert i in table && table[i].bufferEnd.Some? ==>
        (Occupies(table[i], t) <==> table[i].scheduledTime <= t < table[i].bufferEnd.value);
    assert j in table && table[j].bufferEnd.Some? ==>
        (Occupies(table[j], t) <==> table[j].scheduledTime <= t < table[j].bufferEnd.value);
  }

  /** For windows that are not empty, conflicting is sharing an instant. */
  lemma ConflictIsASharedInstant(table: map<Id, Appointment>, d: Uuid, start: Time, end: Time, id: Id, t: Time)
    requires start < end && id in table && table[id].detailer == Some(d) && !table[id].deleted
    requires table[id].status !in {CancelledByClient, CancelledByDetailer, NoShow, NoDetailerFound}
    requires table[id].bufferEnd.Some? && table[id].scheduledTime < table[id].bufferEnd.value
    ensures start <= t < end && table[id].scheduledTime <= t < table[id].bufferEnd.value ==>
              id in Conflicts(table, d, start, end)
    ensures id in Conflicts(table, d, start, end) ==>
              var shared := Max(start, table[id].scheduledTime);
              start <= shared < end && table[id].scheduledTime <= shared < table[id].bufferEnd.value
  {
    ConflictRows(table, d, start, end, id);
  }

  // ---- What is committed keeps blocking ---------------------------------- //

  /** Only its status and its deletion mark can have changed. */
  predicate SameBooking(before: Appointment, after: Appointment) {
    && after == before.(status := after.status, deleted := after.deleted)
    && (before.deleted ==> after.deleted)
  }

  /** A step moves its status along an edge, if it is not deleted, or deletes it, and does nothing else to it. */
  lemma StepKeepsBooking(ideal: bool, s: System, a: Action, id: Id)
    requires Inv(s) && id in s.table
    ensures var after := Step(ideal, s, a).table;
            && id in after && SameBooking(s.table[id], after[id])
            && (after[id].status != s.table[id].status ==>
                  a == Transition(id, after[id].status) && !s.table[id].deleted
                  && Edge(s.table[id].status, after[id].status))
            && (a.Transition? && a.id == id && !s.table[id].deleted && Edge(s.table[id].status, a.to) ==>
                  after[id].status == a.to)
            && (after[id].deleted <==> s.table[id].deleted || a == SoftDelete(id))
  {
  }

  lemma {:induction false} RunKeepsBooking(ideal: bool, s: System, actions: seq<Action>, id: Id)
    requires Inv(s) && id in s.table
    ensures id in Run(ideal, s, actions).table && SameBooking(s.table[id], Run(ideal, s, actions).table[id])
    decreases |actions|
  {
    if actions != [] {
      StepKeepsInv(ideal, s, actions[0]);
      StepKeepsBooking(ideal, s, actions[0], id);
      RunKeepsBooking(ideal, Step(ideal, s, actions[0]), actions[1..], id);
    }
  }

  /**
   Through any further run a committed row keeps its detailer and its window,
   and blocks every overlapping request of that detailer, until it is deleted
   or reaches one of the four terminal statuses.
  */
  lemma CommittedRowBlocks(actions: seq<Action>, future: seq<Action>, id: Id, p: Id, start: Time, end: Time)
    requires id in Run(false, EMPTY, actions).table
    requires var row := Run(false, EMPTY, actions).table[id];
             row.detailer.Some? && row.bufferEnd.Some? && row.scheduledTime < end && start < row.bufferEnd.value
    ensures var row := Run(false, EMPTY, actions).table[id];
            var later := Run(false, Run(false, EMPTY, actions), future);
            && id in later.table
            && (|| later.table[id].deleted
                || later.table[id].status in {CancelledByClient, CancelledByDetailer, NoShow, NoDetailerFound}
                || (&& id in Conflicts(later.table, row.detailer.value, start, end)
                    && (PhaseOf(later, p).Locked? && PhaseOf(later, p).req.detailer == row.detailer.value
                        && PhaseOf(later, p).req.start == start && PhaseOf(later, p).req.end == end ==>
                          PhaseOf(Step(false, later, Count(p)), p).Refused?)))
  {
    var s := Run(false, EMPTY, actions);
    RunKeepsInv(false, EMPTY, actions);
    RunKeepsBooking(false, s, future, id);
    var later, d := Run(false, s, future), s.table[id].detailer.value;
    ConflictRows(later.table, d, start, end, id);
    assert id in Conflicts(later.table, d, start, end) ==> |Conflicts(later.table, d, start, end)| > 0;
  }

  // ---- One transaction by itself --------------------------------------- //

  /** Left undisturbed, a transaction commits its row exactly when its window is free. */
  lemma UndisturbedTransaction(table: map<Id, Appointment>, req: Request, p: Id, id: Id)
    requires id !in table
    ensures var ran := Run(false, System(table, map[]), [Lock(p, req), Count(p), Insert(p, id), Commit(p)]);
            if |Conflicts(table, req.detailer, req.start, req.end)| == 0
            then ran.table == table[id := NewRow(req)] && PhaseOf(ran, p).Idle?
            else ran.table == table && PhaseOf(ran, p).Refused?
  {
    var s0 := System(table, map[]);
    var s1 := Step(false, s0, Lock(p, req));
    var s2 := Step(false, s1, Count(p));
    var s3 := Step(false, s2, Insert(p, id));
    var s4 := Step(false, s3, Commit(p));
    assert s1.procs == map[p := Locked(req)];
    assert FreshId(s2, id);
    RunFour(s0, Lock(p, req), Count(p), Insert(p, id), Commit(p));
  }

  lemma RunFour(s: System, a: Action, b: Action, c: Action, d: Action)
    ensures Run(false, s, [a, b, c, d]) ==
            Step(false, Step(false, Step(false, Step(false, s, a), b), c), d)
  {
    var s1 := Step(false, s, a);
    var s2 := Step(false, s1, b);
    var s3 := Step(false, s2, c);
    assert [a, b, c, d][1..] == [b, c, d] && [b, c, d][1..] == [c, d] && [c, d][1..] == [d] && [d][1..] == [];
    assert Run(false, s3, [d]) == Step(false, s3, d);
    assert Run(false, s2, [c, d]) == Run(false, s3, [d]);
    assert Run(false, s1, [b, c, d]) == Run(false, s2, [c, d]);
  }

  /** Adding a row whose window was counted free keeps the table free of double bookings. */
  lemma FreeWindowKeepsClear(table: map<Id, Appointment>, req: Request, id: Id)
    requires PairwiseClear(table) && id !in table
    requires |Conflicts(table, req.detailer, req.start, req.end)| == 0
    ensures PairwiseClear(table[id := NewRow(req)])
  {
    CountZero(table, req);
    assert NewRow(req).bufferEnd == Some(req.end);
  }

  // ---- Terminal states never revive ----------------------------------- //

  lemma {:induction false} TerminalForever(ideal: bool, s: System, actions: seq<Action>, id: Id)
    requires Inv(s) && id in s.table && Terminal(s.table[id].status)
    ensures id in Run(ideal, s, actions).table
    ensures Run(ideal, s, actions).table[id].status == s.table[id].status
    decreases |actions|
  {
    if actions != [] {
      StepKeepsInv(ideal, s, actions[0]);
      TerminalForever(ideal, Step(ideal, s, actions[0]), actions[1..], id);
    }
  }

  // ---- Key collisions only add blocking -------------------------------- //

  /** The actions that the real, collision-prone lock did not block. */
  function Unblocked(s: System, actions: seq<Action>): seq<Action>
    decreases |actions|
  {
    if actions == [] then []
    else
      var a := actions[0];
      var rest := Unblocked(Step(false, s, a), actions[1..]);
      if a.Lock? && !LockFree(false, s, a.req.detailer) then rest else [a] + rest
  }

  /** The kept actions are all the actions, in order, less some attempts to take a lock. */
  predicate LeavesOutLocks(kept: seq<Action>, actions: seq<Action>)
    decreases |actions|
  {
    if actions == [] then kept == []
    else
      || (kept != [] && kept[0] == actions[0] && LeavesOutLocks(kept[1..], actions[1..]))
      || (actions[0].Lock? && LeavesOutLocks(kept, actions[1..]))
  }

  /** Every run under colliding keys is a run of a perfect per-detailer lock with some lock attempts left out. */
  lemma {:induction false} CollisionsOnlyBlock(s: System, actions: seq<Action>)
    ensures Run(false, s, actions) == Run(true, s, Unblocked(s, actions))
    ensures LeavesOutLocks(Unblocked(s, actions), actions)
    decreases |actions|
  {
    if actions != [] {
      var a := actions[0];
      CollisionsOnlyBlock(Step(false, s, a), actions[1..]);
      if !(a.Lock? && !LockFree(false, s, a.req.detailer)) {
        assert Step(false, s, a) == Step(true, s, a);
        assert Unblocked(s, actions)[1..] == Unblocked(Step(false, s, a), actions[1..]);
      }
    }
  }
}
