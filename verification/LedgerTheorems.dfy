/** The ledger's promises, for every run of its transactions. */
module LedgerTheorems {
  import opened Tables
  import opened Rows
  import opened Ledger
  import opened LedgerProofs

  // ---- the billing-cycle ceiling -----------------------------------------

  /** Whatever was run, a cycle's accounted and reserved bytes exceed its
      ceiling by at most the slack: overruns at settlement and late bookings. */
  lemma CeilingWithSlack(start: Db, events: seq<LedgerEvent>, c: nat)
    requires Sound(start) && c < |Run(start, events).cycles|
    ensures WithinSlack(Run(start, events), c)
  {
    RunKeepsSound(start, events);
    SoundIsWithinSlack(Run(start, events), c);
  }

  predicate WithinSlack(db: Db, c: nat)
    requires c < |db.cycles|
  {
    var k := db.cycles[c];
    var active := Sum(db.reservations, ActiveBytes(c));
    k.application <= Sum(db.reservations, SettledBytes(c)) &&
    Sum(db.reservations, SettledBytes(c)) + active <= k.operational + Sum(db.reservations, SlackBytes(c)) &&
    k.application + active <= k.operational + Sum(db.reservations, SlackBytes(c))
  }

  lemma SoundIsWithinSlack(db: Db, c: nat)
    requires CyclesSound(db) && AttemptsSound(db) && c < |db.cycles|
    ensures WithinSlack(db, c)
  {
    assert CycleSound(db, c);
    forall i | 0 <= i < |db.reservations|
      ensures Claim(c)(db.reservations[i]) + SlackBytes(c)(db.reservations[i]) == Committed(c)(db.reservations[i])
    {
      assert AttemptBooks(db.attempts, db.reservations[i], i);
    }
    SumSplit(db.reservations, Claim(c), SlackBytes(c), Committed(c));
    SumSplit(db.reservations, SettledBytes(c), ActiveBytes(c), Committed(c));
  }

  predicate WithinEnvelope(r: Reservation) {
    !Unsettled(r) ==> r.estimated == r.atSettlement <= r.reserved
  }

  /** No slack anywhere: settled rows kept to their envelopes, and booked
      attempts to their estimates. */
  predicate Frugal(db: Db) {
    (forall i | 0 <= i < |db.reservations| :: WithinEnvelope(db.reservations[i])) &&
    (forall a | 0 <= a < |db.attempts| ::
       db.attempts[a].state.Reconciled? ==> db.attempts[a].state.actual <= db.attempts[a].estimated)
  }

  /** What a worker can check before it reports: an attempt is booked within its
      estimate and before its reservation settles, and a lease reports no more
      than its envelope, or nothing new once the reservation was cancelled. */
  predicate FrugalReport(db: Db, e: LedgerEvent) {
    match e
    case BookTx(id, actual, _) =>
      id < |db.attempts| && db.attempts[id].state.Authorized? && db.attempts[id].reservation < |db.reservations| ==>
        actual <= db.attempts[id].estimated && Unsettled(db.reservations[db.attempts[id].reservation])
    case CloseTx(id, used, _) =>
      id < |db.reservations| ==>
        used <= if Unsettled(db.reservations[id]) then db.reservations[id].reserved else db.reservations[id].estimated
    case _ => true
  }

  predicate FrugalRun(db: Db, events: seq<LedgerEvent>) {
    forall i | 0 <= i < |events| :: FrugalReport(Run(db, events[..i]), events[i])
  }

  lemma EnvelopeCoversActuals(db: Db, id: nat)
    requires Sound(db) && Frugal(db) && id < |db.reservations|
    ensures Sum(db.attempts, ActualBytes(id)) + Sum(db.attempts, PendingBytes(id)) <= db.reservations[id].reserved
    ensures Unsettled(db.reservations[id]) ==> db.reservations[id].estimated <= db.reservations[id].reserved
  {
    assert AttemptBooks(db.attempts, db.reservations[id], id);
    SumZero(db.attempts, OverrunBytes(id));
    SumNonNegative(db.attempts, PendingBytes(id));
  }

  lemma CloseKeepsFrugal(db: Db, e: LedgerEvent)
    requires Sound(db) && Frugal(db) && FrugalReport(db, e) && e.CloseTx?
    ensures Frugal(Apply(db, e))
  {
    if e.id < |db.reservations| {
      assert WithinEnvelope(db.reservations[e.id]);
      EnvelopeCoversActuals(db, e.id);
      assert WithinEnvelope(Apply(db, e).reservations[e.id]);
    }
  }

  lemma StaleKeepsFrugal(db: Db, e: LedgerEvent)
    requires Sound(db) && Frugal(db) && e.StaleTx?
    ensures Frugal(Apply(db, e))
  {
    forall i | 0 <= i < |db.reservations| ensures WithinEnvelope(Apply(db, e).reservations[i]) {
      assert WithinEnvelope(db.reservations[i]);
      EnvelopeCoversActuals(db, i);
    }
  }

  lemma BookKeepsFrugal(db: Db, e: LedgerEvent)
    requires Frugal(db) && FrugalReport(db, e) && e.BookTx?
    ensures Frugal(Apply(db, e))
  {
  }

  lemma OtherEventsKeepFrugal(db: Db, e: LedgerEvent)
    requires Frugal(db) && !e.CloseTx? && !e.StaleTx? && !e.BookTx?
    ensures Frugal(Apply(db, e))
  {
  }

  lemma ApplyKeepsFrugal(db: Db, e: LedgerEvent)
    requires Sound(db) && Frugal(db) && FrugalReport(db, e)
    ensures Frugal(Apply(db, e))
  {
    if e.CloseTx? {
      CloseKeepsFrugal(db, e);
    } else if e.StaleTx? {
      StaleKeepsFrugal(db, e);
    } else if e.BookTx? {
      BookKeepsFrugal(db, e);
    } else {
      OtherEventsKeepFrugal(db, e);
    }
  }

  lemma {:induction false} RunKeepsFrugal(start: Db, events: seq<LedgerEvent>)
    requires Sound(start) && Frugal(start) && FrugalRun(start, events)
    ensures Frugal(Run(start, events))
  {
    if events != [] {
      var last := |events| - 1;
      forall i | 0 <= i < last ensures FrugalReport(Run(start, events[..last][..i]), events[..last][i]) {
        assert events[..last][..i] == events[..i];
      }
      RunKeepsFrugal(start, events[..last]);
      RunKeepsSound(start, events[..last]);
      ApplyKeepsFrugal(Run(start, events[..last]), events[last]);
    }
  }

  /** If every report is frugal the ceiling is never crossed. */
  lemma FrugalRunsKeepCeiling(start: Db, events: seq<LedgerEvent>, c: nat)
    requires Sound(start) && Frugal(start) && FrugalRun(start, events) && c < |Run(start, events).cycles|
    ensures var db := Run(start, events);
            db.cycles[c].application + Sum(db.reservations, ActiveBytes(c)) <= db.cycles[c].operational
  {
    CeilingWithSlack(start, events, c);
    RunKeepsFrugal(start, events);
    FrugalHasNoSlack(Run(start, events), c);
  }

  lemma FrugalHasNoSlack(db: Db, c: nat)
    requires Frugal(db)
    ensures Sum(db.reservations, SlackBytes(c)) == 0
  {
    assert forall i | 0 <= i < |db.reservations| :: WithinEnvelope(db.reservations[i]);
    SumZero(db.reservations, SlackBytes(c));
  }

  /** What one settlement does to a caught-up cycle: the committed bytes move by
      the usage over, or under, the envelope and by nothing else. */
  lemma SettlementShift(db: Db, id: nat, used: nat, requests: nat)
    requires Sound(db) && id < |db.reservations| && Unsettled(db.reservations[id])
    requires CaughtUp(db, db.reservations[id].cycle)
    ensures var r := db.reservations[id];
            var next := CloseReservation(db, id, used, requests);
            next.cycles[r.cycle].application + Sum(next.reservations, ActiveBytes(r.cycle)) ==
            db.cycles[r.cycle].application + Sum(db.reservations, ActiveBytes(r.cycle)) +
            Max(r.estimated, used) - r.reserved
  {
    var r := db.reservations[id];
    var closed := CloseRow(r, used, requests);
    SumUpdate(db.reservations, id, closed, ActiveBytes(r.cycle));
    SumUpdate(db.reservations, id, closed, SettledBytes(r.cycle));
  }

  // ---- a run that crosses the ceiling ------------------------------------------

  const EMPTY: Db := Db([], [], [], [], [], [], [])

  function SampleCycle(application: nat, killed: bool): Cycle {
    Cycle(DECODO, 0, 10, DEFAULT_OPERATIONAL, DEFAULT_DAILY, DEFAULT_PILOT, 0, false, ActiveCycle, killed, true, Some(0), 0,
          application)
  }

  function SampleProfile(enabled: bool): Profile {
    Profile(DECODO, "p", "p", enabled, if enabled then Enabled else Pending, false, false, 0, 0)
  }

  function SampleRequest(): ReserveRequest {
    ReserveRequest(Some(0), None, DECODO, "p", Some(0), Some(0), None, None, 100, false, 0)
  }

  function SampleDb(enabled: bool, routes: seq<Route>, rows: seq<Reservation>): Db {
    Db([SampleCycle(0, false)], [SampleProfile(enabled)], routes, [Allocation(0, 0, 100)], rows, [], [])
  }

  lemma SampleOpened()
    ensures LegacyOpenCycle(EMPTY, 0, 10, 0, 0) == EMPTY.(cycles := [SampleCycle(0, false)])
  {
    assert CloseExpired(EMPTY, DECODO, 0) == EMPTY;
  }

  lemma SampleCreated()
    ensures CreateProfile(EMPTY.(cycles := [SampleCycle(0, false)]), DECODO, "p", "p", 100).0 == SampleDb(false, [], [])
  {
    assert FirstActive([SampleCycle(0, false)], DECODO) == Some(0);
  }

  lemma SampleEnabled()
    ensures ForeignProfile(SampleDb(false, [], []), 0, SampleProfile(true), WEBSHARE) == SampleDb(true, [], [])
    ensures AddRoute(SampleDb(true, [], []), 0, true) == SampleDb(true, [Route(0, true, false)], [])
  {
    assert "decodo"[0] != "webshare"[0];
  }

  lemma SampleAdmitted(db: Db)
    requires db == SampleDb(true, [Route(0, true, false)], [])
    ensures Reserve(db, Clock(0, 0), SampleRequest()).0 ==
            db.(reservations := [NewReservation(SampleRequest(), 0, 0)])
  {
    assert CoveringCycles(db.cycles, DECODO, 0) == [0];
    assert FindAllocation(db.allocations, 0, 0) == Some(0);
  }

  lemma SampleOverrun(db: Db)
    requires db == SampleDb(true, [Route(0, true, false)], [NewReservation(SampleRequest(), 0, 0)])
    ensures CloseReservation(db, 0, DEFAULT_OPERATIONAL + 1, 1).cycles == [SampleCycle(DEFAULT_OPERATIONAL + 1, true)]
  {
    OneSum(CloseRow(db.reservations[0], DEFAULT_OPERATIONAL + 1, 1), SettledBytes(0));
  }

  lemma OneMoreEvent(db: Db, events: seq<LedgerEvent>, e: LedgerEvent)
    ensures Run(db, events + [e]) == Apply(Run(db, events), e)
  {
    assert (events + [e])[..|events|] == events;
  }

  lemma SampleFirst()
    ensures Run(EMPTY, [LegacyOpenTx(0, 10, 0, 0)]) == EMPTY.(cycles := [SampleCycle(0, false)])
  {
    SampleOpened();
    OneMoreEvent(EMPTY, [], LegacyOpenTx(0, 10, 0, 0));
    assert [] + [LegacyOpenTx(0, 10, 0, 0)] == [LegacyOpenTx(0, 10, 0, 0)];
  }

  lemma SampleSecond()
    ensures Apply(EMPTY.(cycles := [SampleCycle(0, false)]), CreateProfileTx(DECODO, "p", "p", 100)) == SampleDb(false, [], [])
  {
    SampleCreated();
    assert DECODO[0] != WEBSHARE[0];
  }

  lemma SampleStarted() returns (events: seq<LedgerEvent>)
    ensures Run(EMPTY, events) == SampleDb(false, [], [])
  {
    var first := [LegacyOpenTx(0, 10, 0, 0)];
    SampleFirst();
    SampleSecond();
    OneMoreEvent(EMPTY, first, CreateProfileTx(DECODO, "p", "p", 100));
    events := first + [CreateProfileTx(DECODO, "p", "p", 100)];
  }

  lemma SampleReady() returns (events: seq<LedgerEvent>)
    ensures Run(EMPTY, events) == SampleDb(true, [Route(0, true, false)], [])
  {
    var b := SampleStarted();
    SampleEnabled();
    OneMoreEvent(EMPTY, b, ForeignTx(0, SampleProfile(true)));
    var c := b + [ForeignTx(0, SampleProfile(true))];
    OneMoreEvent(EMPTY, c, AddRouteTx(0, true));
    events := c + [AddRouteTx(0, true)];
  }

  /** Without the slack the ceiling is false: from the empty tables, six
      transactions reserve 100 bytes and settle them above the ceiling. */
  lemma OverrunCrossesCeiling() returns (events: seq<LedgerEvent>)
    ensures var db := Run(EMPTY, events);
            |db.cycles| == 1 && db.cycles[0].application > db.cycles[0].operational
  {
    var d := SampleReady();
    OneMoreEvent(EMPTY, d, ReserveTx(Clock(0, 0), SampleRequest()));
    SampleAdmitted(Run(EMPTY, d));
    var e := d + [ReserveTx(Clock(0, 0), SampleRequest())];
    OneMoreEvent(EMPTY, e, CloseTx(0, DEFAULT_OPERATIONAL + 1, 1));
    SampleOverrun(Run(EMPTY, e));
    events := e + [CloseTx(0, DEFAULT_OPERATIONAL + 1, 1)];
  }

  // ---- when the cycle's counter is behind --------------------------------

  predicate CaughtUp(db: Db, c: nat)
    requires c < |db.cycles|
  {
    db.cycles[c].application == Sum(db.reservations, SettledBytes(c))
  }

  /** The attempt whose booking the cycle's counter will not see. */
  predicate LateBooking(db: Db, id: nat, actual: int, c: nat) {
    id < |db.attempts| && db.attempts[id].state.Authorized? && db.attempts[id].reservation < |db.reservations| &&
    db.reservations[db.attempts[id].reservation].cycle == c &&
    !Unsettled(db.reservations[db.attempts[id].reservation]) && actual > 0
  }

  /** Booking an attempt leaves the cycle's counter equal to its settled usage
      exactly when the attempt's reservation has not settled yet. */
  lemma BookingIsCountedIff(db: Db, id: nat, actual: int, requests: nat, c: nat)
    requires Sound(db) && c < |db.cycles| && CaughtUp(db, c)
    ensures CaughtUp(ReconcileAttempt(db, id, actual, requests).0, c) <==> !LateBooking(db, id, actual, c)
  {
    var next := ReconcileAttempt(db, id, actual, requests).0;
    if next != db {
      var owner := db.attempts[id].reservation;
      SumUpdate(db.reservations, owner, next.reservations[owner], SettledBytes(c));
    }
  }

  /** A close call catches the counter up only when it changes the row, so a
      late close that repeats what the attempts booked leaves it behind. */
  lemma ChangingCloseCatchesUp(db: Db, id: nat, used: nat, requests: nat)
    requires CyclesSound(CloseReservation(db, id, used, requests)) && CloseReservation(db, id, used, requests) != db
    requires id < |db.reservations| && db.reservations[id].cycle < |db.cycles|
    requires db.cycles[db.reservations[id].cycle].application
             <= Sum(CloseReservation(db, id, used, requests).reservations, SettledBytes(db.reservations[id].cycle))
    ensures CaughtUp(CloseReservation(db, id, used, requests), db.reservations[id].cycle)
  {
    assert CycleSound(CloseReservation(db, id, used, requests), db.reservations[id].cycle);
  }

  lemma CloseCatchesUpIff(db: Db, id: nat, used: nat, requests: nat)
    requires Sound(db) && id < |db.reservations|
    ensures var r := db.reservations[id];
            CaughtUp(CloseReservation(db, id, used, requests), r.cycle) <==>
              CaughtUp(db, r.cycle) || Unsettled(r) ||
              (r.state == Cancelled && (r.estimated < used || r.requests < requests))
  {
    var c := db.reservations[id].cycle;
    var next := CloseReservation(db, id, used, requests);
    if next != db {
      CloseKeepsSound(db, id, used, requests);
      assert CycleSound(next, c) && CycleStep(db.cycles[c], next.cycles[c]);
      ChangingCloseCatchesUp(db, id, used, requests);
    }
  }

  // ---- exhaustion ----------------------------------------------------------

  /** Once a cycle's accounted bytes reach its ceiling the kill switch is on,
      and stays on, and neither a reservation nor an attempt is admitted. */
  lemma ExhaustionLatches(start: Db, events: seq<LedgerEvent>, more: seq<LedgerEvent>, c: nat)
    requires Sound(start) && c < |Run(start, events).cycles| && Exhausted(Run(start, events).cycles[c])
    ensures var db := Run(Run(start, events), more);
            c < |db.cycles| && Exhausted(db.cycles[c]) && db.cycles[c].killSwitch &&
            (forall clock, q :: Admission(db, clock, q) != Ok(c)) &&
            (forall now, id: nat, estimate, maximum | id < |db.reservations| && db.reservations[id].cycle == c ::
               Authorize(db, now, id, estimate, maximum).1.Refused?)
  {
    RunKeepsSound(start, events);
    var middle := Run(start, events);
    RunKeepsSound(middle, more);
    var db := Run(middle, more);
    assert CycleStep(middle.cycles[c], db.cycles[c]);
    assert CycleSound(db, c);
    KilledCycleRefuses(db, c);
  }

  lemma KilledCycleRefuses(db: Db, c: nat)
    requires c < |db.cycles| && db.cycles[c].killSwitch
    ensures forall clock, q :: Admission(db, clock, q) != Ok(c)
    ensures forall now, id: nat, estimate, maximum | id < |db.reservations| && db.reservations[id].cycle == c ::
              Authorize(db, now, id, estimate, maximum).1.Refused?
  {
    forall now, id: nat, estimate, maximum | id < |db.reservations| && db.reservations[id].cycle == c
      ensures Authorize(db, now, id, estimate, maximum).1.Refused?
    {
      assert AttemptDenial(db, now, id).Some?;
    }
  }

  // ---- attempts ------------------------------------------------------------

  /** Until a reservation settles its booking is exactly the sum of the actuals
      of its reconciled attempts; and what was booked plus what is still pending
      exceeds its envelope at most by the attempts' own overruns. */
  lemma AttemptsAreConserved(start: Db, events: seq<LedgerEvent>, id: nat)
    requires Sound(start) && id < |Run(start, events).reservations|
    ensures var db := Run(start, events);
            var r := db.reservations[id];
            (Unsettled(r) ==> r.estimated == Sum(db.attempts, ActualBytes(id)) &&
                              r.requests == Sum(db.attempts, ActualRequests(id)) &&
                              r.estimated + Sum(db.attempts, PendingBytes(id)) <=
                              r.reserved + Sum(db.attempts, OverrunBytes(id))) &&
            Sum(db.attempts, ActualBytes(id)) <= r.estimated
  {
    RunKeepsSound(start, events);
    var db := Run(start, events);
    assert AttemptBooks(db.attempts, db.reservations[id], id);
  }

  /** A booking happens once: repeated after any run it changes nothing, and
      with other actuals it is refused. */
  lemma BookedAgain(later: Db, id: nat, actual: nat, requests: nat, other: nat, count: nat)
    requires id < |later.attempts| && later.attempts[id].reservation < |later.reservations|
    requires later.attempts[id].state == Reconciled(actual, requests)
    ensures ReconcileAttempt(later, id, actual, requests).0 == later &&
            ReconcileAttempt(later, id, actual, requests).1.Ok? &&
            ReleaseAttempt(later, id) == (later, Err(AttemptDispatched)) &&
            ((other, count) != (actual, requests) ==>
               ReconcileAttempt(later, id, other, count) == (later, Err(AttemptDiffers)))
  {
  }

  lemma BookedState(db: Db, id: nat, actual: nat, requests: nat)
    requires ReconcileAttempt(db, id, actual, requests).1.Ok?
    ensures var booked := ReconcileAttempt(db, id, actual, requests).0;
            id < |booked.attempts| && booked.attempts[id].state == Reconciled(actual, requests)
  {
  }

  lemma BookingIsExactlyOnce(db: Db, id: nat, actual: nat, requests: nat, events: seq<LedgerEvent>, other: nat, count: nat)
    requires Sound(db) && ReconcileAttempt(db, id, actual, requests).1.Ok?
    ensures var later := Run(ReconcileAttempt(db, id, actual, requests).0, events);
            ReconcileAttempt(later, id, actual, requests).0 == later &&
            ReconcileAttempt(later, id, actual, requests).1.Ok? &&
            ReleaseAttempt(later, id) == (later, Err(AttemptDispatched)) &&
            ((other, count) != (actual, requests) ==>
               ReconcileAttempt(later, id, other, count) == (later, Err(AttemptDiffers)))
  {
    var booked := ReconcileAttempt(db, id, actual, requests).0;
    BookKeepsSound(db, id, actual, requests);
    BookedState(db, id, actual, requests);
    RunKeepsSound(booked, events);
    var later := Run(booked, events);
    assert AttemptStep(booked.attempts[id], later.attempts[id]);
    BookedAgain(later, id, actual, requests, other, count);
  }

  lemma ReleaseIsFinal(db: Db, id: nat, actual: nat, requests: nat, events: seq<LedgerEvent>)
    requires Sound(db) && ReleaseAttempt(db, id).1.Ok?
    ensures var later := Run(ReleaseAttempt(db, id).0, events);
            ReleaseAttempt(later, id) == (later, Ok(())) &&
            ReconcileAttempt(later, id, actual, requests) == (later, Err(AttemptReleased))
  {
    var released := ReleaseAttempt(db, id).0;
    ReleaseKeepsSound(db, id);
    RunKeepsSound(released, events);
    var later := Run(released, events);
    assert AttemptStep(released.attempts[id], later.attempts[id]);
  }

  /** A close call repeated after any run changes nothing. */
  lemma CloseIsExactlyOnce(db: Db, id: nat, used: nat, requests: nat, events: seq<LedgerEvent>)
    requires Sound(db) && id < |db.reservations|
    ensures var later := Run(CloseReservation(db, id, used, requests), events);
            CloseReservation(later, id, used, requests) == later
  {
    var closed := CloseReservation(db, id, used, requests);
    CloseKeepsSound(db, id, used, requests);
    RunKeepsSound(closed, events);
    SettledCloseIsNoOp(db, Run(closed, events), id, used, requests);
  }

  lemma SettledCloseIsNoOp(db: Db, later: Db, id: nat, used: nat, requests: nat)
    requires id < |db.reservations| && id < |later.reservations|
    requires RowStep(CloseReservation(db, id, used, requests).reservations[id], later.reservations[id])
    ensures CloseReservation(later, id, used, requests) == later
  {
    var r := CloseReservation(db, id, used, requests).reservations[id];
    assert !Unsettled(r) && (r.state == Cancelled ==> used <= r.estimated && requests <= r.requests);
  }

  // ---- allocations -----------------------------------------------------------

  /** In every run the allocations of a cycle fit beside its unmanaged share, and
      each profile's unsettled reservations fit its allocation. */
  lemma AllocationsFit(start: Db, events: seq<LedgerEvent>)
    requires Sound(start)
    ensures var db := Run(start, events);
            (forall c | 0 <= c < |db.cycles| ::
               Sum(db.allocations, AllocatedBytes(c)) + db.cycles[c].unmanaged <= db.cycles[c].operational) &&
            (forall i | 0 <= i < |db.allocations| ::
               Sum(db.reservations, ProfileActiveBytes(db.allocations[i].cycle, db.allocations[i].profile))
               <= db.allocations[i].bytes)
  {
    RunKeepsSound(start, events);
    var db := Run(start, events);
    assert forall i | 0 <= i < |db.allocations| :: ProfileFits(db, db.allocations[i]);
  }

  // ---- the active cycle --------------------------------------------------------

  lemma {:induction false} NoneCovers(cycles: seq<Cycle>, provider: string, now: int, from: nat)
    requires from <= |cycles| && forall k | from <= k < |cycles| :: !CoversNow(cycles[k], provider, now)
    ensures CoveringCycles(cycles, provider, now, from) == []
    decreases |cycles| - from
  {
    if from < |cycles| {
      NoneCovers(cycles, provider, now, from + 1);
    }
  }

  lemma {:induction false} AtMostOneCovers(db: Db, provider: string, now: int, from: nat)
    requires KeysSound(db) && from <= |db.cycles|
    ensures |CoveringCycles(db.cycles, provider, now, from)| <= 1
    decreases |db.cycles| - from
  {
    if from < |db.cycles| {
      if CoversNow(db.cycles[from], provider, now) {
        NoneCovers(db.cycles, provider, now, from + 1);
      } else {
        AtMostOneCovers(db, provider, now, from + 1);
      }
    }
  }

  /** The refusal for several active cycles cannot be reached. */
  lemma OneCycleCoversNow(start: Db, events: seq<LedgerEvent>, clock: Clock, q: ReserveRequest)
    requires Sound(start)
    ensures Admission(Run(start, events), clock, q) != Err(MultipleCycles)
  {
    RunKeepsSound(start, events);
    AtMostOneCovers(Run(start, events), q.provider, clock.db, 0);
    OneCoverIsNoConflict(Run(start, events), clock, q);
  }

  lemma OneCoverIsNoConflict(db: Db, clock: Clock, q: ReserveRequest)
    requires |CoveringCycles(db.cycles, q.provider, clock.db)| <= 1
    ensures Admission(db, clock, q) != Err(MultipleCycles)
  {
  }
}
