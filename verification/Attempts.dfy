/** When a paid attempt is authorized, and what its request cap promises. */
module Attempts {
  import opened Tables
  import opened Rows
  import opened Ledger
  import opened LedgerProofs

  /** The envelope is open, under the profile's and the route's leave, in a cycle
      that runs and lets traffic through. */
  predicate Dispatchable(db: Db, now: int, id: nat) {
    id < |db.reservations| &&
    var r := db.reservations[id];
    r.state == Active && !r.revocationRequested &&
    r.cycle < |db.cycles| && r.profile < |db.profiles| && r.route < |db.routes| &&
    var k, p, x := db.cycles[r.cycle], db.profiles[r.profile], db.routes[r.route];
    k.lifecycle == ActiveCycle && k.start <= now < k.end && !k.killSwitch && k.reconciliationOk && k.reconciledAt.Some? &&
    p.enabled && p.lifecycle == Enabled && p.generation == r.generation &&
    x.profile == r.profile && x.enabled && !x.retired
  }

  /** Bytes of the attempts that are authorized and not yet resolved. */
  function Outstanding(attempts: seq<Attempt>, id: nat): nat {
    if attempts == [] then 0
    else
      var a := attempts[|attempts| - 1];
      Outstanding(attempts[..|attempts| - 1], id) +
      if a.reservation == id && a.state == Authorized then a.estimated else 0
  }

  /** The number of those attempts. */
  function InFlight(attempts: seq<Attempt>, id: nat): nat {
    if attempts == [] then 0
    else
      var a := attempts[|attempts| - 1];
      InFlight(attempts[..|attempts| - 1], id) + if a.reservation == id && a.state == Authorized then 1 else 0
  }

  lemma {:induction false} PendingIs(attempts: seq<Attempt>, id: nat)
    ensures Sum(attempts, PendingBytes(id)) == Outstanding(attempts, id)
    ensures Sum(attempts, PendingRequests(id)) == InFlight(attempts, id)
  {
    if attempts != [] {
      PendingIs(attempts[..|attempts| - 1], id);
    }
  }

  predicate Lawful(estimate: int, maximum: Option<int>) {
    estimate >= 0 && (maximum.Some? ==> maximum.value >= 1)
  }

  predicate FitsEnvelope(db: Db, id: nat, estimate: int)
    requires id < |db.reservations|
  {
    db.reservations[id].estimated + Outstanding(db.attempts, id) + estimate <= db.reservations[id].reserved
  }

  predicate BelowCap(db: Db, id: nat, maximum: Option<int>)
    requires id < |db.reservations|
  {
    maximum.Some? ==> db.reservations[id].requests + InFlight(db.attempts, id) < maximum.value
  }

  /** An attempt is granted exactly when its arguments are lawful, everything it
      runs under is live and unrevoked, its estimate fits the envelope beside what
      is booked and in flight, and so many requests stay below the cap; if only
      one of the last two fails there is no capacity. A grant adds one authorized
      attempt of that estimate, and nothing else writes. */
  lemma AuthorizedIff(db: Db, now: int, id: nat, estimate: int, maximum: Option<int>)
    ensures var (next, answer) := Authorize(db, now, id, estimate, maximum);
            var leave := Lawful(estimate, maximum) && Dispatchable(db, now, id);
            (answer.Granted? <==> leave && FitsEnvelope(db, id, estimate) && BelowCap(db, id, maximum)) &&
            (answer == NoCapacity <==> leave && !(FitsEnvelope(db, id, estimate) && BelowCap(db, id, maximum))) &&
            (answer.Granted? ==>
               answer.id == |db.attempts| && estimate >= 0 &&
               next == db.(attempts := db.attempts + [Attempt(id, estimate, Authorized)])) &&
            (!answer.Granted? ==> next == db)
  {
    PendingIs(db.attempts, id);
  }

  /** A result is booked once: the first one is added to the reservation and
      fixed on the attempt, the same one again is only answered, and any other is
      refused. The answer says whether the envelope is overdrawn. */
  lemma BookedIff(db: Db, a: nat, actual: int, requests: int)
    ensures var (next, answer) := ReconcileAttempt(db, a, actual, requests);
            if a < |db.attempts| && db.attempts[a].reservation < |db.reservations| && actual >= 0 && requests >= 0 &&
               db.attempts[a].state in {Authorized, Reconciled(actual, requests)}
            then
              var id := db.attempts[a].reservation;
              var r := db.reservations[id];
              var first := db.attempts[a].state == Authorized;
              var k := if first then r.(estimated := r.estimated + actual, requests := r.requests + requests) else r;
              next == db.(attempts := db.attempts[a := Attempt(id, db.attempts[a].estimated, Reconciled(actual, requests))],
                          reservations := db.reservations[id := k]) &&
              answer == Ok(Usage(k.estimated, k.requests, r.revocationRequested || r.state == RevocationRequested,
                                 k.estimated > k.reserved))
            else next == db && answer.Err?
  {
  }

  /** An attempt that was never sent can be released, again and again; one with a
      result cannot. */
  lemma ReleasedIff(db: Db, a: nat)
    ensures var (next, answer) := ReleaseAttempt(db, a);
            if a < |db.attempts| && db.attempts[a].state in {Authorized, Released}
            then answer.Ok? && next == db.(attempts := db.attempts[a := db.attempts[a].(state := Released)])
            else answer.Err? && next == db
  {
  }

  // ---- the request cap over runs --------------------------------------------------------

  /** Booked requests and attempts in flight stay within the cap. */
  predicate WithinCap(db: Db, id: nat, cap: nat) {
    id < |db.reservations| ==> db.reservations[id].requests + InFlight(db.attempts, id) <= cap
  }

  /** A close writes its own request count, which leaves out what is in flight. */
  predicate CloseFits(db: Db, id: nat, used: nat, requests: nat, cap: nat) {
    id < |db.reservations| ==>
      var r := db.reservations[id];
      r.state in {Active, RevocationRequested} ||
      (r.state == Cancelled && (r.estimated < used || r.requests < requests)) ==>
        requests + InFlight(db.attempts, id) <= cap
  }

  /** Every authorization of the reservation carries the cap, an attempt books one
      request at most, and a close counts no more than the cap leaves. */
  predicate Capped(db: Db, e: LedgerEvent, id: nat, cap: nat) {
    match e
    case AuthorizeTx(_, x, _, maximum) => x == id ==> maximum.Some? && maximum.value <= cap
    case BookTx(a, _, requests) => a < |db.attempts| && db.attempts[a].reservation == id ==> requests <= 1
    case CloseTx(x, used, requests) => x == id ==> CloseFits(db, id, used, requests, cap)
    case _ => true
  }

  predicate CappedRun(start: Db, events: seq<LedgerEvent>, id: nat, cap: nat) {
    forall i | 0 <= i < |events| :: Capped(Run(start, events[..i]), events[i], id, cap)
  }

  lemma OneMoreInFlight(attempts: seq<Attempt>, a: Attempt, id: nat)
    ensures InFlight(attempts + [a], id) ==
            InFlight(attempts, id) + if a.reservation == id && a.state == Authorized then 1 else 0
  {
    assert (attempts + [a])[..|attempts|] == attempts;
  }

  lemma {:induction false} NoneInFlight(attempts: seq<Attempt>, id: nat)
    requires forall i | 0 <= i < |attempts| :: attempts[i].reservation != id
    ensures InFlight(attempts, id) == 0
  {
    if attempts != [] {
      NoneInFlight(attempts[..|attempts| - 1], id);
    }
  }

  lemma ResolvedOne(attempts: seq<Attempt>, a: nat, state: AttemptState, id: nat)
    requires a < |attempts| && attempts[a].state == Authorized && state != Authorized
    ensures InFlight(attempts[a := attempts[a].(state := state)], id) ==
            InFlight(attempts, id) - if attempts[a].reservation == id then 1 else 0
  {
    var next := attempts[a := attempts[a].(state := state)];
    PendingIs(attempts, id);
    PendingIs(next, id);
    SumUpdate(attempts, a, next[a], PendingRequests(id));
  }

  lemma AuthorizeStaysWithinCap(db: Db, now: int, x: nat, estimate: int, maximum: Option<int>, id: nat, cap: nat)
    requires WithinCap(db, id, cap) && (x == id ==> maximum.Some? && maximum.value <= cap)
    ensures WithinCap(Authorize(db, now, x, estimate, maximum).0, id, cap)
  {
    AuthorizedIff(db, now, x, estimate, maximum);
    if Authorize(db, now, x, estimate, maximum).1.Granted? {
      OneMoreInFlight(db.attempts, Attempt(x, estimate, Authorized), id);
    }
  }

  lemma BookStaysWithinCap(db: Db, a: nat, actual: int, requests: int, id: nat, cap: nat)
    requires WithinCap(db, id, cap) && (a < |db.attempts| && db.attempts[a].reservation == id ==> requests <= 1)
    ensures WithinCap(ReconcileAttempt(db, a, actual, requests).0, id, cap)
  {
    if ReconcileAttempt(db, a, actual, requests).0 != db {
      ResolvedOne(db.attempts, a, Reconciled(actual, requests), id);
    }
  }

  lemma ReleaseStaysWithinCap(db: Db, a: nat, id: nat, cap: nat)
    requires WithinCap(db, id, cap)
    ensures WithinCap(ReleaseAttempt(db, a).0, id, cap)
  {
    if ReleaseAttempt(db, a).0 != db {
      ResolvedOne(db.attempts, a, Released, id);
    }
  }

  /** A close keeps the cap exactly when its count fits beside what is in flight:
      an attempt that the lease has counted and nobody has booked yet is counted
      twice. */
  lemma CloseKeepsCapIff(db: Db, id: nat, used: nat, requests: nat, cap: nat)
    requires WithinCap(db, id, cap)
    ensures WithinCap(CloseReservation(db, id, used, requests), id, cap) <==> CloseFits(db, id, used, requests, cap)
  {
  }

  lemma OtherCloseStaysWithinCap(db: Db, x: nat, used: nat, requests: nat, id: nat, cap: nat)
    requires WithinCap(db, id, cap) && x != id
    ensures WithinCap(CloseReservation(db, x, used, requests), id, cap)
  {
  }

  lemma ReserveStaysWithinCap(db: Db, clock: Clock, q: ReserveRequest, id: nat, cap: nat)
    requires Linked(db) && WithinCap(db, id, cap)
    ensures WithinCap(Reserve(db, clock, q).0, id, cap)
  {
    if id == |db.reservations| {
      NoneInFlight(db.attempts, id);
    }
  }

  /** The events that touch neither an attempt nor a request count. */
  predicate Uncounted(e: LedgerEvent) {
    e.StaleTx? || FlagEvent(e) || CycleEvent(e) || ProfileEvent(e) || WriteEvent(e)
  }

  lemma UncountedRows(db: Db, e: LedgerEvent)
    requires e.StaleTx? || e.RevokeTx?
    ensures var next := Apply(db, e);
            next.attempts == db.attempts && |next.reservations| == |db.reservations| &&
            forall i | 0 <= i < |db.reservations| :: next.reservations[i].requests == db.reservations[i].requests
  {
  }

  lemma UncountedTables(db: Db, e: LedgerEvent)
    requires Uncounted(e) && !e.StaleTx? && !e.RevokeTx?
    ensures Apply(db, e).attempts == db.attempts && Apply(db, e).reservations == db.reservations
  {
  }

  lemma UncountedStaysWithinCap(db: Db, e: LedgerEvent, id: nat, cap: nat)
    requires WithinCap(db, id, cap) && Uncounted(e)
    ensures WithinCap(Apply(db, e), id, cap)
  {
    if e.StaleTx? || e.RevokeTx? {
      UncountedRows(db, e);
    } else {
      UncountedTables(db, e);
    }
  }

  lemma EventStaysWithinCap(db: Db, e: LedgerEvent, id: nat, cap: nat)
    requires Linked(db) && WithinCap(db, id, cap) && Capped(db, e, id, cap)
    ensures WithinCap(Apply(db, e), id, cap)
  {
    match e
    case ReserveTx(clock, q) => ReserveStaysWithinCap(db, clock, q, id, cap);
    case AuthorizeTx(now, x, estimate, maximum) => AuthorizeStaysWithinCap(db, now, x, estimate, maximum, id, cap);
    case BookTx(a, actual, requests) => BookStaysWithinCap(db, a, actual, requests, id, cap);
    case ReleaseTx(a) => ReleaseStaysWithinCap(db, a, id, cap);
    case CloseTx(x, used, requests) =>
      if x == id {
        CloseKeepsCapIff(db, id, used, requests, cap);
      } else {
        OtherCloseStaysWithinCap(db, x, used, requests, id, cap);
      }
    case _ => UncountedStaysWithinCap(db, e, id, cap);
  }

  /** Under one cap and attempts of at most one request, what a reservation has
      booked and in flight never exceeds the cap, in any run. */
  lemma {:induction false} RequestsStayWithinCap(start: Db, events: seq<LedgerEvent>, id: nat, cap: nat)
    requires Sound(start) && WithinCap(start, id, cap) && CappedRun(start, events, id, cap)
    ensures WithinCap(Run(start, events), id, cap)
  {
    if events != [] {
      var before := events[..|events| - 1];
      forall i | 0 <= i < |before| ensures Capped(Run(start, before[..i]), before[i], id, cap) {
        assert before[..i] == events[..i];
      }
      RequestsStayWithinCap(start, before, id, cap);
      RunKeepsSound(start, before);
      EventStaysWithinCap(Run(start, before), events[|events| - 1], id, cap);
    }
  }
}
