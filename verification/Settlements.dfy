/** What settling a reservation leaves behind it, for good. */
module Settlements {
  import opened Tables
  import opened Rows
  import opened Ledger
  import opened LedgerProofs
  import opened Attempts

  predicate Open(r: Reservation) {
    r.state in {Active, RevocationRequested}
  }

  /** A close settles an open envelope, lets a late report raise an abandoned one,
      and writes nothing otherwise: a closed envelope takes no report. */
  lemma CloseReaches(db: Db, id: nat, used: nat, requests: nat, x: nat)
    requires x < |db.reservations|
    ensures var next := CloseReservation(db, id, used, requests);
            var r := db.reservations[x];
            var most := r.(estimated := if used > r.estimated then used else r.estimated,
                           requests := if requests > r.requests then requests else r.requests);
            |next.reservations| == |db.reservations| &&
            next.reservations[x] ==
              if x != id then r
              else if Open(r) then most.(state := Closed, atSettlement := most.estimated)
              else if r.state == Cancelled then most
              else r
  {
  }

  lemma ClosedTakesNoReport(db: Db, id: nat, used: nat, requests: nat)
    requires id < |db.reservations| && db.reservations[id].state == Closed
    ensures CloseReservation(db, id, used, requests) == db
  {
  }

  /** The cleanup abandons exactly the open envelopes that both of its reads found. */
  lemma CleanupReaches(db: Db, candidates: set<nat>, confirmed: set<nat>, x: nat)
    requires x < |db.reservations|
    ensures var next := CloseStale(db, candidates, confirmed);
            var r := db.reservations[x];
            |next.reservations| == |db.reservations| &&
            next.reservations[x] ==
              if x in candidates && x in confirmed && Open(r) then r.(state := Cancelled, atSettlement := r.estimated)
              else r
  {
  }

  // ---- the usage of a closed envelope -------------------------------------------------

  /** Bytes of the attempts that were booked on a reservation. */
  function BookedBytes(attempts: seq<Attempt>, id: nat): nat {
    if attempts == [] then 0
    else
      var a := attempts[|attempts| - 1];
      BookedBytes(attempts[..|attempts| - 1], id) +
      if a.reservation == id && a.state.Reconciled? then a.state.actual else 0
  }

  lemma {:induction false} BookedIs(attempts: seq<Attempt>, id: nat)
    ensures Sum(attempts, ActualBytes(id)) == BookedBytes(attempts, id)
  {
    if attempts != [] {
      BookedIs(attempts[..|attempts| - 1], id);
    }
  }

  /** Closed, with usage that only the bookings of its attempts moved. */
  predicate ClosedAlike(db: Db, next: Db, id: nat) {
    id < |db.reservations| && id < |next.reservations| &&
    db.reservations[id].state == Closed && next.reservations[id].state == Closed &&
    next.reservations[id].estimated - db.reservations[id].estimated ==
    BookedBytes(next.attempts, id) - BookedBytes(db.attempts, id)
  }

  lemma AttemptsKeepClosed(db: Db, e: LedgerEvent, id: nat)
    requires AttemptEvent(e) && id < |db.reservations| && db.reservations[id].state == Closed
    ensures ClosedAlike(db, Apply(db, e), id)
  {
    var next := Apply(db, e);
    BookedIs(db.attempts, id);
    BookedIs(next.attempts, id);
    if |next.attempts| > |db.attempts| {
      SumAppend(db.attempts, next.attempts[|db.attempts|], ActualBytes(id));
    } else if next.attempts != db.attempts {
      SumUpdate(db.attempts, e.id, next.attempts[e.id], ActualBytes(id));
    }
  }

  lemma SettlementKeepsClosed(db: Db, e: LedgerEvent, id: nat)
    requires SettlementEvent(e) && id < |db.reservations| && db.reservations[id].state == Closed
    ensures ClosedAlike(db, Apply(db, e), id)
  {
    if e.CloseTx? {
      CloseReaches(db, e.id, e.used, e.requests, id);
    } else if e.StaleTx? {
      CleanupReaches(db, e.candidates, e.confirmed, id);
    }
  }

  lemma RestKeepsClosed(db: Db, e: LedgerEvent, id: nat)
    requires Uncounted(e) && !e.StaleTx? && id < |db.reservations| && db.reservations[id].state == Closed
    ensures ClosedAlike(db, Apply(db, e), id)
  {
    if e.RevokeTx? {
      UncountedRows(db, e);
    } else {
      UncountedTables(db, e);
    }
  }

  /** Once closed, a reservation stays closed, and its usage moves only by what
      attempts in flight are booked with: no later report of a lease reaches it. */
  lemma {:induction false} ClosedUsageIsFinal(start: Db, events: seq<LedgerEvent>, id: nat)
    requires id < |start.reservations| && start.reservations[id].state == Closed
    ensures ClosedAlike(start, Run(start, events), id)
  {
    if events != [] {
      var db := Run(start, events[..|events| - 1]);
      var e := events[|events| - 1];
      ClosedUsageIsFinal(start, events[..|events| - 1], id);
      if AttemptEvent(e) {
        AttemptsKeepClosed(db, e, id);
      } else if SettlementEvent(e) {
        SettlementKeepsClosed(db, e, id);
      } else {
        RestKeepsClosed(db, e, id);
      }
    }
  }
}
