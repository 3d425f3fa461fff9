/** Row locks of the ledger's transactions, and why they never deadlock.

    A transaction takes the row locks of its statements one by one and keeps
    them until it commits or rolls back. */
module LockOrder {
  import opened Tables
  import opened Rows
  import opened Ledger
  import opened LedgerProofs
  import Consumers = Admission

  datatype Row =
    | CycleRow(id: nat)
    | ProfileRow(id: nat)
    | RouteRow(id: nat)
    | AttemptRow(id: nat)
    | ReservationRow(id: nat)
    | ProbeRow(id: nat)

  datatype Mode = Share | Exclusive

  datatype Request = Request(row: Row, mode: Mode)

  /** What each transaction locks. A cleanup takes the cycles of its candidates
      in order, then their reservations and then their probes, each in whatever
      order the update meets them. */
  datatype Plan =
    | ReserveLocks(cycle: nat, profile: nat, route: nat)
    | AuthorizeLocks(cycle: nat, profile: nat, route: nat, reservation: nat)
    | ReconcileLocks(attempt: nat, reservation: nat)
    | ReleaseLocks(attempt: nat)
    | CloseLocks(cycle: nat, reservation: nat)
    | CleanupLocks(cycles: seq<nat>, reservations: seq<nat>, probes: seq<nat>)

  function CycleRequests(cycles: seq<nat>): seq<Request> {
    seq(|cycles|, i requires 0 <= i < |cycles| => Request(CycleRow(cycles[i]), Exclusive))
  }

  function ReservationRequests(ids: seq<nat>): seq<Request> {
    seq(|ids|, i requires 0 <= i < |ids| => Request(ReservationRow(ids[i]), Exclusive))
  }

  function ProbeRequests(ids: seq<nat>): seq<Request> {
    seq(|ids|, i requires 0 <= i < |ids| => Request(ProbeRow(ids[i]), Exclusive))
  }

  function Requests(p: Plan): seq<Request> {
    match p
    case ReserveLocks(c, f, r) =>
      [Request(CycleRow(c), Exclusive), Request(ProfileRow(f), Share), Request(RouteRow(r), Share)]
    case AuthorizeLocks(c, f, r, x) =>
      [Request(CycleRow(c), Exclusive), Request(ProfileRow(f), Share), Request(RouteRow(r), Share),
       Request(ReservationRow(x), Exclusive)]
    case ReconcileLocks(a, x) => [Request(AttemptRow(a), Exclusive), Request(ReservationRow(x), Exclusive)]
    case ReleaseLocks(a) => [Request(AttemptRow(a), Exclusive)]
    case CloseLocks(c, x) => [Request(CycleRow(c), Exclusive), Request(ReservationRow(x), Exclusive)]
    case CleanupLocks(cycles, ids, probes) => CycleRequests(cycles) + ReservationRequests(ids) + ProbeRequests(probes)
  }

  /** The cycle column of the reservations, and the cycle of the one reservation a
      probe has; no transaction changes them. */
  datatype CycleOf = CycleOf(reservations: map<nat, nat>, probes: map<nat, nat>)

  predicate Locates(of: CycleOf, x: nat, c: nat) {
    x in of.reservations && of.reservations[x] == c
  }

  /** Reservations and probes lie inside a cycle. */
  predicate Inner(row: Row) {
    row.ReservationRow? || row.ProbeRow?
  }

  predicate Inside(of: CycleOf, row: Row, c: nat) {
    match row
    case ReservationRow(id) => Locates(of, id, c)
    case ProbeRow(id) => id in of.probes && of.probes[id] == c
    case _ => false
  }

  predicate WellFormed(p: Plan, of: CycleOf, cycles: nat) {
    match p
    case ReserveLocks(c, _, _) => c < cycles
    case AuthorizeLocks(c, _, _, x) => c < cycles && Locates(of, x, c)
    case ReconcileLocks(_, _) => true
    case ReleaseLocks(_) => true
    case CloseLocks(c, x) => c < cycles && Locates(of, x, c)
    case CleanupLocks(ids, rows, probes) =>
      (forall i | 0 <= i < |ids| :: ids[i] < cycles) &&
      (forall i, j | 0 <= i < j < |ids| :: ids[i] < ids[j]) &&
      (forall i | 0 <= i < |rows| :: rows[i] in of.reservations && of.reservations[rows[i]] in ids) &&
      (forall i | 0 <= i < |probes| :: probes[i] in of.probes && of.probes[probes[i]] in ids)
  }

  // ---- the machine ---------------------------------------------------------

  datatype Transaction = Transaction(plan: Plan, taken: seq<Request>, waiting: seq<Request>)

  type Schedule = seq<Transaction>

  predicate Conflict(a: Request, b: Request) {
    a.row == b.row && !(a.mode == Share && b.mode == Share)
  }

  predicate Done(t: Transaction) {
    t.waiting == []
  }

  function Awaited(t: Transaction): Request
    requires !Done(t)
  {
    t.waiting[0]
  }

  predicate Blocks(u: Transaction, q: Request) {
    exists held | held in u.taken :: Conflict(held, q)
  }

  /** A transaction can commit once it holds all its locks, and can take its
      next lock when no other transaction holds a conflicting one. */
  predicate CanStep(s: Schedule, t: nat) {
    t < |s| && (Done(s[t]) || forall u | 0 <= u < |s| && u != t :: !Blocks(s[u], Awaited(s[t])))
  }

  datatype LockEvent = Start(plan: Plan) | Acquire(t: nat) | Finish(t: nat)

  function Without(s: Schedule, t: nat): Schedule
    requires t < |s|
  {
    s[..t] + s[t + 1..]
  }

  function Taken(t: Transaction): Transaction
    requires !Done(t)
  {
    t.(taken := t.taken + [t.waiting[0]], waiting := t.waiting[1..])
  }

  /** Finishing covers commit and rollback, which may come at any point. */
  function LockStep(s: Schedule, e: LockEvent): Schedule {
    match e
    case Start(plan) => s + [Transaction(plan, [], Requests(plan))]
    case Acquire(t) => if CanStep(s, t) && !Done(s[t]) then s[t := Taken(s[t])] else s
    case Finish(t) => if t < |s| then Without(s, t) else s
  }

  function LockRun(events: seq<LockEvent>): Schedule {
    if events == [] then [] else LockStep(LockRun(events[..|events| - 1]), events[|events| - 1])
  }

  predicate PlanSound(t: Transaction, of: CycleOf, cycles: nat) {
    t.taken + t.waiting == Requests(t.plan) && WellFormed(t.plan, of, cycles)
  }

  predicate PlansSound(s: Schedule, of: CycleOf, cycles: nat) {
    forall t | 0 <= t < |s| :: PlanSound(s[t], of, cycles)
  }

  predicate PairSound(a: Transaction, b: Transaction) {
    forall q, r | q in a.taken && r in b.taken :: !Conflict(q, r)
  }

  predicate LocksSound(s: Schedule) {
    forall t, u | 0 <= t < |s| && 0 <= u < |s| && t != u :: PairSound(s[t], s[u])
  }

  predicate PlansStarted(events: seq<LockEvent>, of: CycleOf, cycles: nat) {
    forall i | 0 <= i < |events| :: events[i].Start? ==> WellFormed(events[i].plan, of, cycles)
  }

  lemma AcquireKeepsSound(s: Schedule, of: CycleOf, cycles: nat, t: nat)
    requires LocksSound(s) && PlansSound(s, of, cycles) && CanStep(s, t) && !Done(s[t])
    ensures LocksSound(s[t := Taken(s[t])]) && PlansSound(s[t := Taken(s[t])], of, cycles)
  {
    var next := s[t := Taken(s[t])];
    forall a, b | 0 <= a < |next| && 0 <= b < |next| && a != b ensures PairSound(next[a], next[b]) {
      assert PairSound(s[a], s[b]);
      assert a != t ==> !Blocks(s[a], Awaited(s[t]));
      assert b != t ==> !Blocks(s[b], Awaited(s[t]));
    }
    assert PlanSound(s[t], of, cycles) && next[t].taken + next[t].waiting == s[t].taken + s[t].waiting;
  }

  lemma FinishKeepsSound(s: Schedule, of: CycleOf, cycles: nat, t: nat)
    requires LocksSound(s) && PlansSound(s, of, cycles) && t < |s|
    ensures LocksSound(Without(s, t)) && PlansSound(Without(s, t), of, cycles)
  {
  }

  lemma StartKeepsSound(s: Schedule, of: CycleOf, cycles: nat, plan: Plan)
    requires LocksSound(s) && PlansSound(s, of, cycles) && WellFormed(plan, of, cycles)
    ensures LocksSound(LockStep(s, Start(plan))) && PlansSound(LockStep(s, Start(plan)), of, cycles)
  {
    assert PlanSound(Transaction(plan, [], Requests(plan)), of, cycles);
  }

  lemma {:induction false} RunKeepsLocksSound(events: seq<LockEvent>, of: CycleOf, cycles: nat)
    requires PlansStarted(events, of, cycles)
    ensures LocksSound(LockRun(events)) && PlansSound(LockRun(events), of, cycles)
  {
    if events != [] {
      RunKeepsLocksSound(events[..|events| - 1], of, cycles);
      var s := LockRun(events[..|events| - 1]);
      match events[|events| - 1]
      case Start(plan) => StartKeepsSound(s, of, cycles, plan);
      case Acquire(t) =>
        if CanStep(s, t) && !Done(s[t]) {
          AcquireKeepsSound(s, of, cycles, t);
        }
      case Finish(t) =>
        if t < |s| {
          FinishKeepsSound(s, of, cycles, t);
        }
    }
  }

  // ---- the order -------------------------------------------------------------

  function Rank(row: Row, cycles: nat): nat {
    match row
    case CycleRow(id) => id
    case ProfileRow(_) => cycles
    case RouteRow(_) => cycles + 1
    case AttemptRow(_) => cycles + 2
    case ReservationRow(_) => cycles + 3
    case ProbeRow(_) => cycles + 4
  }

  /** Requests ascend, except that a cleanup's reservations, and its probes, come
      in any order. */
  lemma RequestsAscend(p: Plan, of: CycleOf, cycles: nat, i: nat, j: nat)
    requires WellFormed(p, of, cycles) && i < j < |Requests(p)|
    ensures var a := Requests(p)[i].row;
            var b := Requests(p)[j].row;
            (Rank(a, cycles) < Rank(b, cycles) <= cycles + 4 && (Inner(a) ==> p.CleanupLocks? && Inner(b))) ||
            (p.CleanupLocks? && Inner(a) && Inner(b))
  {
  }

  /** What a waiting transaction holds ranks below what it waits for. */
  lemma HeldBelowAwaited(t: Transaction, of: CycleOf, cycles: nat, q: Request)
    requires PlanSound(t, of, cycles) && !Done(t) && q in t.taken
    ensures var a := q.row;
            var b := Awaited(t).row;
            (Rank(a, cycles) < Rank(b, cycles) <= cycles + 4 && (Inner(a) ==> t.plan.CleanupLocks? && Inner(b))) ||
            (t.plan.CleanupLocks? && Inner(a) && Inner(b))
  {
    var i :| 0 <= i < |t.taken| && t.taken[i] == q;
    assert (t.taken + t.waiting)[i] == q;
    assert (t.taken + t.waiting)[|t.taken|] == Awaited(t);
    RequestsAscend(t.plan, of, cycles, i, |t.taken|);
  }

  lemma CleanupHoldsCycle(p: Plan, of: CycleOf, cycles: nat, j: nat) returns (c: nat)
    requires WellFormed(p, of, cycles) && p.CleanupLocks? && j < |Requests(p)| && Inner(Requests(p)[j].row)
    ensures Inside(of, Requests(p)[j].row, c) && Request(CycleRow(c), Exclusive) in Requests(p)[..j]
  {
    var k := j - |p.cycles|;
    c := if k < |p.reservations| then of.reservations[p.reservations[k]] else of.probes[p.probes[k - |p.reservations|]];
    var i :| 0 <= i < |p.cycles| && p.cycles[i] == c;
    assert Requests(p)[..j][i] == Request(CycleRow(c), Exclusive);
  }

  /** A cleanup that holds or awaits an inner row holds its cycle. */
  lemma CleanupOwnsCycle(t: Transaction, of: CycleOf, cycles: nat, q: Request) returns (c: nat)
    requires PlanSound(t, of, cycles) && t.plan.CleanupLocks? && Inner(q.row)
    requires q in t.taken || (!Done(t) && q == Awaited(t))
    ensures Inside(of, q.row, c) && Request(CycleRow(c), Exclusive) in t.taken
  {
    var all := t.taken + t.waiting;
    var j := |t.taken|;
    if q in t.taken {
      j :| 0 <= j < |t.taken| && t.taken[j] == q;
    }
    assert all[j] == q;
    c := CleanupHoldsCycle(t.plan, of, cycles, j);
    assert all[..j] == t.taken[..j];
  }

  lemma CleanupsExclude(a: Transaction, b: Transaction, of: CycleOf, cycles: nat, q: Request)
    requires PairSound(a, b) && PlanSound(a, of, cycles) && PlanSound(b, of, cycles)
    requires a.plan.CleanupLocks? && !Done(a) && Inner(Awaited(a).row)
    requires b.plan.CleanupLocks? && q in b.taken
    ensures q.row != Awaited(a).row
  {
    var c := CleanupOwnsCycle(a, of, cycles, Awaited(a));
    if Inner(q.row) {
      var d := CleanupOwnsCycle(b, of, cycles, q);
    }
  }

  lemma BlockerOf(s: Schedule, t: nat) returns (u: nat, q: Request)
    requires t < |s| && !CanStep(s, t)
    ensures u < |s| && u != t && q in s[u].taken && !Done(s[t]) && Conflict(q, Awaited(s[t]))
  {
    u :| 0 <= u < |s| && u != t && Blocks(s[u], Awaited(s[t]));
    q :| q in s[u].taken && Conflict(q, Awaited(s[t]));
  }

  /** Who keeps an inner row from its waiter can step, or is a cleanup that waits
      for another inner row. */
  lemma InnerHolder(s: Schedule, of: CycleOf, cycles: nat, t: nat) returns (u: nat, q: Request)
    requires PlansSound(s, of, cycles) && t < |s| && !CanStep(s, t) && Inner(Awaited(s[t]).row)
    ensures u < |s| && u != t && q in s[u].taken && q.row == Awaited(s[t]).row
    ensures CanStep(s, u) || (!Done(s[u]) && s[u].plan.CleanupLocks? && Inner(Awaited(s[u]).row))
  {
    u, q := BlockerOf(s, t);
    if !CanStep(s, u) {
      HeldBelowAwaited(s[u], of, cycles, q);
    }
  }

  /** Behind any waiter for an inner row stands a transaction that can step:
      two cleanups cannot both be inside one cycle. */
  lemma InnerWaiterEnds(s: Schedule, of: CycleOf, cycles: nat, t: nat) returns (w: nat)
    requires LocksSound(s) && PlansSound(s, of, cycles) && t < |s| && !CanStep(s, t) && Inner(Awaited(s[t]).row)
    ensures CanStep(s, w)
  {
    var u, p := InnerHolder(s, of, cycles, t);
    if CanStep(s, u) {
      return u;
    }
    var v, q := InnerHolder(s, of, cycles, u);
    if s[v].plan.CleanupLocks? {
      CleanupsExclude(s[u], s[v], of, cycles, q);
    }
    w := v;
  }

  /** Following blockers climbs the order until some transaction can step. */
  lemma {:induction false} SomeoneSteps(s: Schedule, of: CycleOf, cycles: nat, t: nat) returns (w: nat)
    requires LocksSound(s) && PlansSound(s, of, cycles) && t < |s|
    ensures CanStep(s, w)
    decreases if Done(s[t]) then 0 else cycles + 5 - Rank(Awaited(s[t]).row, cycles)
  {
    if CanStep(s, t) {
      return t;
    }
    if Inner(Awaited(s[t]).row) {
      w := InnerWaiterEnds(s, of, cycles, t);
      return;
    }
    var u, q := BlockerOf(s, t);
    if CanStep(s, u) {
      return u;
    }
    HeldBelowAwaited(s[u], of, cycles, q);
    w := SomeoneSteps(s, of, cycles, u);
  }

  /** From every reachable set of held and awaited locks some transaction steps. */
  lemma NeverDeadlocked(events: seq<LockEvent>, of: CycleOf, cycles: nat)
    requires PlansStarted(events, of, cycles) && LockRun(events) != []
    ensures exists t :: CanStep(LockRun(events), t)
  {
    RunKeepsLocksSound(events, of, cycles);
    var w := SomeoneSteps(LockRun(events), of, cycles, 0);
  }

  // ---- everyone can commit ------------------------------------------------------

  /** Taking the next lock, or committing once every lock is held. */
  function Advance(s: Schedule, t: nat): Schedule
    requires CanStep(s, t)
  {
    if Done(s[t]) then Without(s, t) else s[t := Taken(s[t])]
  }

  predicate AllCommit(s: Schedule, order: seq<nat>)
    decreases |order|
  {
    if order == [] then s == [] else CanStep(s, order[0]) && AllCommit(Advance(s, order[0]), order[1..])
  }

  function Outstanding(): Transaction -> int {
    (t: Transaction) => |t.waiting| + 1
  }

  lemma {:induction false} WithoutSum(s: Schedule, t: nat)
    requires t < |s|
    ensures Sum(Without(s, t), Outstanding()) == Sum(s, Outstanding()) - Outstanding()(s[t])
    decreases |s|
  {
    var last := |s| - 1;
    if t == last {
      assert Without(s, t) == s[..last];
    } else {
      assert Without(s, t) == Without(s[..last], t) + [s[last]];
      WithoutSum(s[..last], t);
      SumAppend(Without(s[..last], t), s[last], Outstanding());
    }
  }

  lemma AdvanceWorks(s: Schedule, t: nat)
    requires CanStep(s, t)
    ensures 0 <= Sum(Advance(s, t), Outstanding()) < Sum(s, Outstanding())
  {
    SumNonNegative(Advance(s, t), Outstanding());
    if Done(s[t]) {
      WithoutSum(s, t);
    } else {
      SumUpdate(s, t, Taken(s[t]), Outstanding());
    }
  }

  /** Without new arrivals there is always an order in which every transaction
      takes its remaining locks and commits. */
  lemma {:induction false} EveryoneCommits(s: Schedule, of: CycleOf, cycles: nat) returns (order: seq<nat>)
    requires LocksSound(s) && PlansSound(s, of, cycles)
    ensures AllCommit(s, order)
    decreases Sum(s, Outstanding())
  {
    order := [];
    if s != [] {
      var w := SomeoneSteps(s, of, cycles, 0);
      if Done(s[w]) {
        FinishKeepsSound(s, of, cycles, w);
      } else {
        AcquireKeepsSound(s, of, cycles, w);
      }
      AdvanceWorks(s, w);
      var rest := EveryoneCommits(Advance(s, w), of, cycles);
      order := [w] + rest;
      assert order[1..] == rest;
    }
  }

  // ---- the plans are the ledger's -------------------------------------------------

  /** The plan's exclusive locks are those the transaction's writes need. */
  predicate Serves(db: Db, e: LedgerEvent, p: Plan) {
    match e
    case ReserveTx(clock, q) =>
      var verdict := Admission(db, clock, q);
      verdict.Ok? ==> p == ReserveLocks(verdict.value, q.profile.value, q.route.value)
    case AuthorizeTx(_, id, _, _) =>
      id < |db.reservations| ==>
        var r := db.reservations[id];
        p == AuthorizeLocks(r.cycle, r.profile, r.route, id)
    case BookTx(id, _, _) => id < |db.attempts| ==> p == ReconcileLocks(id, db.attempts[id].reservation)
    case ReleaseTx(id) => p == ReleaseLocks(id)
    case CloseTx(id, _, _) => id < |db.reservations| ==> p == CloseLocks(db.reservations[id].cycle, id)
    case StaleTx(candidates, confirmed) =>
      p.CleanupLocks? &&
      forall i | 0 <= i < |db.reservations| :: StaleRow(db, candidates, confirmed, i) ==>
                                                 i in p.reservations && db.reservations[i].cycle in p.cycles &&
                                                 (db.reservations[i].probe.Some? ==>
                                                    db.reservations[i].probe.value in p.probes)
    case _ => false
  }

  predicate Locks(p: Plan, row: Row) {
    Request(row, Exclusive) in Requests(p)
  }

  lemma CleanupLocksRows(p: Plan, x: nat)
    requires p.CleanupLocks?
    ensures x in p.reservations ==> Locks(p, ReservationRow(x))
    ensures x in p.cycles ==> Locks(p, CycleRow(x))
  {
    if x in p.reservations {
      var i :| 0 <= i < |p.reservations| && p.reservations[i] == x;
      assert Requests(p)[|p.cycles| + i] == Request(ReservationRow(x), Exclusive);
    }
    if x in p.cycles {
      var i :| 0 <= i < |p.cycles| && p.cycles[i] == x;
      assert Requests(p)[i] == Request(CycleRow(x), Exclusive);
    }
  }

  /** Every changed row is locked. */
  predicate ChangesLocked(db: Db, next: Db, p: Plan, x: nat) {
    (x < |db.cycles| ==> x < |next.cycles| && (next.cycles[x] != db.cycles[x] ==> Locks(p, CycleRow(x)))) &&
    (x < |db.reservations| ==>
       x < |next.reservations| && (next.reservations[x] != db.reservations[x] ==> Locks(p, ReservationRow(x)))) &&
    (x < |db.attempts| ==>
       x < |next.attempts| && (next.attempts[x] != db.attempts[x] ==> Locks(p, AttemptRow(x))))
  }

  lemma PlanLocks(p: Plan, i: nat)
    requires i < |Requests(p)| && Requests(p)[i].mode == Exclusive
    ensures Locks(p, Requests(p)[i].row)
  {
    assert Requests(p)[i] in Requests(p);
  }

  lemma CloseChangesLocked(db: Db, id: nat, used: nat, requests: nat, x: nat)
    requires id < |db.reservations|
    ensures ChangesLocked(db, CloseReservation(db, id, used, requests), CloseLocks(db.reservations[id].cycle, id), x)
  {
    PlanLocks(CloseLocks(db.reservations[id].cycle, id), 0);
    PlanLocks(CloseLocks(db.reservations[id].cycle, id), 1);
  }

  lemma StaleChangesLocked(db: Db, candidates: set<nat>, confirmed: set<nat>, p: Plan, x: nat)
    requires Serves(db, StaleTx(candidates, confirmed), p)
    ensures ChangesLocked(db, CloseStale(db, candidates, confirmed), p, x)
  {
    CleanupLocksRows(p, x);
  }

  lemma AttemptChangesLocked(db: Db, e: LedgerEvent, p: Plan, x: nat)
    requires Serves(db, e, p) && (e.BookTx? || e.ReleaseTx?)
    ensures ChangesLocked(db, Apply(db, e), p, x)
  {
    if e.ReleaseTx? {
      PlanLocks(p, 0);
    } else if e.id < |db.attempts| {
      PlanLocks(p, 0);
      PlanLocks(p, 1);
    }
  }

  /** No ledger transaction changes a row that its plan does not lock. */
  lemma ChangedRowsAreLocked(db: Db, e: LedgerEvent, p: Plan, x: nat)
    requires Serves(db, e, p)
    ensures ChangesLocked(db, Apply(db, e), p, x)
  {
    match e
    case ReserveTx(_, _) =>
    case AuthorizeTx(_, _, _, _) =>
    case CloseTx(id, used, requests) =>
      if id < |db.reservations| {
        CloseChangesLocked(db, id, used, requests, x);
      }
    case StaleTx(candidates, confirmed) => StaleChangesLocked(db, candidates, confirmed, p, x);
    case BookTx(_, _, _) => AttemptChangesLocked(db, e, p, x);
    case ReleaseTx(_) => AttemptChangesLocked(db, e, p, x);
  }

  /** The reservation of a probe, which has at most one. */
  function ProbeRowOf(rows: seq<Reservation>, probe: nat): (found: Option<nat>)
    ensures found.Some? ==> found.value < |rows| && rows[found.value].probe == Some(probe)
    ensures found.None? ==> forall r | r in rows :: r.probe != Some(probe)
  {
    if rows == [] then None
    else if rows[|rows| - 1].probe == Some(probe) then Some(|rows| - 1)
    else ProbeRowOf(rows[..|rows| - 1], probe)
  }

  function ProbesOf(rows: seq<Reservation>): set<nat> {
    set r | r in rows && r.probe.Some? :: r.probe.value
  }

  function CyclesOf(db: Db): CycleOf {
    CycleOf(
      map i: nat | i < |db.reservations| :: db.reservations[i].cycle,
      map probe | probe in ProbesOf(db.reservations) && ProbeRowOf(db.reservations, probe).Some? ::
        db.reservations[ProbeRowOf(db.reservations, probe).value].cycle)
  }

  function Positions(n: nat, keep: nat -> bool): (ids: seq<nat>)
    ensures forall i | 0 <= i < |ids| :: ids[i] < n && keep(ids[i])
    ensures forall i, j | 0 <= i < j < |ids| :: ids[i] < ids[j]
    ensures forall k: nat | k < n && keep(k) :: k in ids
  {
    if n == 0 then []
    else
      var rest := Positions(n - 1, keep);
      if keep(n - 1) then rest + [n - 1] else rest
  }

  function ProbesAt(rows: seq<Reservation>, ids: seq<nat>): (probes: seq<nat>)
    requires forall i | 0 <= i < |ids| :: ids[i] < |rows|
    ensures forall i | 0 <= i < |ids| && rows[ids[i]].probe.Some? :: rows[ids[i]].probe.value in probes
    ensures forall probe | probe in probes :: exists i | 0 <= i < |ids| :: rows[ids[i]].probe == Some(probe)
  {
    if ids == [] then []
    else
      var last := rows[ids[|ids| - 1]].probe;
      ProbesAt(rows, ids[..|ids| - 1]) + if last.Some? then [last.value] else []
  }

  function StaleRows(db: Db, candidates: set<nat>, confirmed: set<nat>): (ids: seq<nat>)
    ensures forall i | 0 <= i < |ids| :: ids[i] < |db.reservations| && StaleRow(db, candidates, confirmed, ids[i])
    ensures forall k: nat | k < |db.reservations| && StaleRow(db, candidates, confirmed, k) :: k in ids
  {
    Positions(|db.reservations|, (i: nat) => i < |db.reservations| && StaleRow(db, candidates, confirmed, i))
  }

  function CleanupPlan(db: Db, candidates: set<nat>, confirmed: set<nat>): Plan {
    CleanupLocks(
      Positions(|db.cycles|, (c: nat) => StaleCycle(db, candidates, confirmed, c)),
      StaleRows(db, candidates, confirmed),
      ProbesAt(db.reservations, StaleRows(db, candidates, confirmed)))
  }

  lemma ProbeCycle(db: Db, i: nat)
    requires Consumers.ConsumersUnique(db.reservations) && i < |db.reservations| && db.reservations[i].probe.Some?
    ensures var probe := db.reservations[i].probe.value;
            probe in CyclesOf(db).probes && CyclesOf(db).probes[probe] == db.reservations[i].cycle
  {
    var probe := db.reservations[i].probe.value;
    assert db.reservations[i] in db.reservations;
    var j := ProbeRowOf(db.reservations, probe).value;
    assert i < j ==> !Consumers.SameConsumer(db.reservations[i], db.reservations[j]);
    assert j < i ==> !Consumers.SameConsumer(db.reservations[j], db.reservations[i]);
  }

  lemma CleanupRowsAreInside(db: Db, candidates: set<nat>, confirmed: set<nat>)
    requires Linked(db)
    ensures var p := CleanupPlan(db, candidates, confirmed);
            forall i | 0 <= i < |p.reservations| ::
              p.reservations[i] in CyclesOf(db).reservations &&
              CyclesOf(db).reservations[p.reservations[i]] in p.cycles
  {
  }

  lemma CleanupProbesAreInside(db: Db, candidates: set<nat>, confirmed: set<nat>, i: nat)
    requires Consumers.ConsumersUnique(db.reservations) && i < |CleanupPlan(db, candidates, confirmed).probes|
    ensures var p := CleanupPlan(db, candidates, confirmed);
            p.probes[i] in CyclesOf(db).probes &&
            exists k | 0 <= k < |p.reservations| :: CyclesOf(db).probes[p.probes[i]] == db.reservations[p.reservations[k]].cycle
  {
    var p := CleanupPlan(db, candidates, confirmed);
    assert p.probes[i] in p.probes;
    var k :| 0 <= k < |p.reservations| && db.reservations[p.reservations[k]].probe == Some(p.probes[i]);
    ProbeCycle(db, p.reservations[k]);
  }

  lemma CleanupPlanIsWellFormed(db: Db, candidates: set<nat>, confirmed: set<nat>)
    requires Linked(db) && Consumers.ConsumersUnique(db.reservations)
    ensures WellFormed(CleanupPlan(db, candidates, confirmed), CyclesOf(db), |db.cycles|)
  {
    var p := CleanupPlan(db, candidates, confirmed);
    CleanupRowsAreInside(db, candidates, confirmed);
    forall i | 0 <= i < |p.probes| ensures p.probes[i] in CyclesOf(db).probes && CyclesOf(db).probes[p.probes[i]] in p.cycles {
      CleanupProbesAreInside(db, candidates, confirmed, i);
    }
  }

  /** On linked tables, where a probe has one reservation at most, the six
      transactions ask for well-formed plans only. */
  lemma LedgerPlansAreWellFormed(db: Db, e: LedgerEvent, p: Plan)
    requires Linked(db) && Consumers.ConsumersUnique(db.reservations) && Serves(db, e, p)
    requires e.ReserveTx? ==> Admission(db, e.clock, e.request).Ok?
    requires e.AuthorizeTx? || e.CloseTx? ==> e.id < |db.reservations|
    requires e.BookTx? ==> e.id < |db.attempts|
    requires e.StaleTx? ==> p == CleanupPlan(db, e.candidates, e.confirmed)
    ensures WellFormed(p, CyclesOf(db), |db.cycles|)
  {
    if e.StaleTx? {
      CleanupPlanIsWellFormed(db, e.candidates, e.confirmed);
    }
  }

  lemma CleanupPlanServes(db: Db, candidates: set<nat>, confirmed: set<nat>)
    requires Linked(db)
    ensures Serves(db, StaleTx(candidates, confirmed), CleanupPlan(db, candidates, confirmed))
  {
  }
}
