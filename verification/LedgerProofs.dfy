/** What every run of ledger transactions keeps. */
module LedgerProofs {
  import opened Tables
  import opened Rows
  import opened Ledger

  datatype LedgerEvent =
    | ReserveTx(clock: Clock, request: ReserveRequest)
    | CloseTx(id: nat, used: nat, requests: nat)
    | StaleTx(candidates: set<nat>, confirmed: set<nat>)
    | AuthorizeTx(now: int, id: nat, estimate: int, maximum: Option<int>)
    | BookTx(id: nat, actual: int, requestCount: int)
    | ReleaseTx(id: nat)
    | ReportTx(provider: string, start: int, reported: int, ok: bool, now: int)
    | ActivateTx(provider: string)
    | RevokeTx(provider: string)
    | ClearTx(provider: string, now: int)
    | PilotTx(provider: string, on: bool, now: int)
    | ProposeTx(provider: string, start: int, end: int, purchased: nat)
    | OpenTx(c: nat, provider: string, confirmedValues: bool, now: int)
    | EndTx(c: nat, provider: string, now: int)
    | LegacyOpenTx(start: int, end: int, reported: int, now: int)
    | CreateProfileTx(provider: string, name: string, display: string, bytes: int)
    | AllocationTx(p: nat, bytes: int)
    | ForeignTx(p: nat, row: Profile)
    | SetRouteTx(route: nat, enabled: bool, retired: bool)
    | AddRouteTx(p: nat, enabled: bool)

  function Apply(db: Db, e: LedgerEvent): Db {
    match e
    case ReserveTx(clock, request) => Reserve(db, clock, request).0
    case CloseTx(id, used, requests) => CloseReservation(db, id, used, requests)
    case StaleTx(candidates, confirmed) => CloseStale(db, candidates, confirmed)
    case AuthorizeTx(now, id, estimate, maximum) => Authorize(db, now, id, estimate, maximum).0
    case BookTx(id, actual, requests) => ReconcileAttempt(db, id, actual, requests).0
    case ReleaseTx(id) => ReleaseAttempt(db, id).0
    case ReportTx(provider, start, reported, ok, now) => ReconcileProvider(db, provider, start, reported, ok, now)
    case ActivateTx(provider) => ActivateKillSwitch(db, provider)
    case RevokeTx(provider) => RevokeAll(db, provider)
    case ClearTx(provider, now) => ClearKillSwitch(db, provider, now)
    case PilotTx(provider, on, now) => SwitchPilot(db, provider, on, now)
    case ProposeTx(provider, start, end, purchased) => ProposeCycle(db, provider, start, end, purchased)
    case OpenTx(c, provider, confirmed, now) => OpenCycle(db, c, provider, confirmed, now)
    case EndTx(c, provider, now) => EndCycle(db, c, provider, now)
    case LegacyOpenTx(start, end, reported, now) => LegacyOpenCycle(db, start, end, reported, now)
    case CreateProfileTx(provider, name, display, bytes) =>
      if provider == WEBSHARE then db else CreateProfile(db, provider, name, display, bytes).0
    case AllocationTx(p, bytes) => ChangeAllocation(db, p, bytes, ReadAllocation(db, p))
    case ForeignTx(p, row) => ForeignProfile(db, p, row, WEBSHARE)
    case SetRouteTx(route, enabled, retired) => SetRoute(db, route, enabled, retired)
    case AddRouteTx(p, enabled) => AddRoute(db, p, enabled)
  }

  function Run(db: Db, events: seq<LedgerEvent>): Db {
    if events == [] then db else Apply(Run(db, events[..|events| - 1]), events[|events| - 1])
  }

  // ---- weights of the proof ----------------------------------------------

  /** What a reservation may still take from its cycle's ceiling: its envelope
      while unsettled, and no more than its envelope afterwards. */
  function Claim(c: nat): Reservation -> int {
    (r: Reservation) =>
      if r.cycle != c then 0 else if Unsettled(r) then r.reserved else Min(r.atSettlement, r.reserved)
  }

  function BookedAtSettlement(c: nat): Reservation -> int {
    (r: Reservation) => if r.cycle == c && !Unsettled(r) then r.atSettlement else 0
  }

  /** A settled reservation's overrun at settlement plus all it booked later. */
  function SlackBytes(c: nat): Reservation -> int {
    (r: Reservation) =>
      if r.cycle == c && !Unsettled(r)
      then r.estimated - r.atSettlement + Max(0, r.atSettlement - r.reserved) else 0
  }

  function Committed(c: nat): Reservation -> int {
    (r: Reservation) => if r.cycle != c then 0 else if Unsettled(r) then r.reserved else r.estimated
  }

  function ActualBytes(id: nat): Attempt -> int {
    (a: Attempt) => if a.reservation == id && a.state.Reconciled? then a.state.actual else 0
  }

  function ActualRequests(id: nat): Attempt -> int {
    (a: Attempt) => if a.reservation == id && a.state.Reconciled? then a.state.requests else 0
  }

  function OverrunBytes(id: nat): Attempt -> int {
    (a: Attempt) =>
      if a.reservation == id && a.state.Reconciled? then Max(0, a.state.actual - a.estimated) else 0
  }

  // ---- how rows may change -----------------------------------------------

  /** Settled states are absorbing, bookings never fall, and the booking at
      settlement is fixed when the reservation settles. */
  predicate RowStep(r: Reservation, s: Reservation) {
    s.job == r.job && s.probe == r.probe && s.profile == r.profile && s.route == r.route && s.cycle == r.cycle &&
    s.reserved == r.reserved && s.pilot == r.pilot && s.generation == r.generation && s.createdAt == r.createdAt &&
    r.estimated <= s.estimated && r.requests <= s.requests && (r.revocationRequested ==> s.revocationRequested) &&
    (if !Unsettled(r) then s.state == r.state && s.atSettlement == r.atSettlement
     else if Unsettled(s) then r.state == RevocationRequested ==> s.state == RevocationRequested
     else r.estimated <= s.atSettlement <= s.estimated)
  }

  predicate CycleStep(k: Cycle, l: Cycle) {
    l.provider == k.provider && l.start == k.start && l.end == k.end && l.operational == k.operational &&
    l.daily == k.daily && l.pilotBytes == k.pilotBytes && l.unmanaged == k.unmanaged &&
    k.application <= l.application && k.reported <= l.reported &&
    (k.lifecycle == ClosedCycle ==> l.lifecycle == ClosedCycle)
  }

  predicate AttemptStep(a: Attempt, b: Attempt) {
    b.reservation == a.reservation && b.estimated == a.estimated && (!a.state.Authorized? ==> b == a)
  }

  predicate Evolves(db: Db, next: Db) {
    |db.reservations| <= |next.reservations| && |db.cycles| <= |next.cycles| && |db.attempts| <= |next.attempts| &&
    (forall i | 0 <= i < |db.reservations| :: RowStep(db.reservations[i], next.reservations[i])) &&
    (forall c | 0 <= c < |db.cycles| :: CycleStep(db.cycles[c], next.cycles[c])) &&
    (forall a | 0 <= a < |db.attempts| :: AttemptStep(db.attempts[a], next.attempts[a]))
  }

  // ---- the invariant -----------------------------------------------------

  predicate Linked(db: Db) {
    (forall i | 0 <= i < |db.reservations| ::
       db.reservations[i].cycle < |db.cycles| && db.reservations[i].profile < |db.profiles| &&
       db.cycles[db.reservations[i].cycle].provider == db.profiles[db.reservations[i].profile].provider) &&
    (forall a | 0 <= a < |db.attempts| :: db.attempts[a].reservation < |db.reservations|) &&
    (forall a | 0 <= a < |db.allocations| ::
       db.allocations[a].cycle < |db.cycles| && db.allocations[a].profile < |db.profiles|)
  }

  predicate CycleBooks(rows: seq<Reservation>, k: Cycle, c: nat) {
    Sum(rows, BookedAtSettlement(c)) <= k.application <= Sum(rows, SettledBytes(c)) &&
    Sum(rows, Claim(c)) <= k.operational
  }

  predicate Exhausted(k: Cycle) {
    Accounted(k) >= k.operational
  }

  predicate CycleSound(db: Db, c: nat)
    requires c < |db.cycles|
  {
    CycleBooks(db.reservations, db.cycles[c], c) && (Exhausted(db.cycles[c]) ==> db.cycles[c].killSwitch)
  }

  predicate AttemptBooks(attempts: seq<Attempt>, r: Reservation, id: nat) {
    Sum(attempts, ActualBytes(id)) <= r.estimated &&
    Sum(attempts, ActualBytes(id)) + Sum(attempts, PendingBytes(id)) <= r.reserved + Sum(attempts, OverrunBytes(id)) &&
    (if Unsettled(r)
     then r.estimated == Sum(attempts, ActualBytes(id)) && r.requests == Sum(attempts, ActualRequests(id))
     else r.atSettlement <= r.estimated)
  }

  predicate ProfileFits(db: Db, a: Allocation) {
    Sum(db.reservations, ProfileActiveBytes(a.cycle, a.profile)) <= a.bytes
  }

  predicate AllocationKeys(db: Db) {
    forall i, j | 0 <= i < j < |db.allocations| ::
      !(db.allocations[i].cycle == db.allocations[j].cycle && db.allocations[i].profile == db.allocations[j].profile)
  }

  predicate CapacitySound(db: Db) {
    forall c | 0 <= c < |db.cycles| ::
      Sum(db.allocations, AllocatedBytes(c)) + db.cycles[c].unmanaged <= db.cycles[c].operational
  }

  predicate ProfilesFit(db: Db) {
    forall i | 0 <= i < |db.allocations| :: ProfileFits(db, db.allocations[i])
  }

  predicate KeysSound(db: Db) {
    (forall i, j | 0 <= i < j < |db.cycles| ::
       db.cycles[i].provider == db.cycles[j].provider ==> db.cycles[i].start != db.cycles[j].start) &&
    (forall i, j | 0 <= i < j < |db.cycles| ::
       db.cycles[i].provider == db.cycles[j].provider && db.cycles[i].lifecycle == ActiveCycle
       ==> db.cycles[j].lifecycle != ActiveCycle) &&
    (forall i, j | 0 <= i < j < |db.profiles| :: db.profiles[i].name != db.profiles[j].name)
  }

  predicate CyclesSound(db: Db) {
    forall c | 0 <= c < |db.cycles| :: CycleSound(db, c)
  }

  predicate AttemptsSound(db: Db) {
    forall i | 0 <= i < |db.reservations| :: AttemptBooks(db.attempts, db.reservations[i], i)
  }

  predicate Sound(db: Db) {
    Linked(db) && KeysSound(db) && AllocationKeys(db) && CapacitySound(db) && ProfilesFit(db) &&
    CyclesSound(db) && AttemptsSound(db)
  }

  // ---- settlement and row changes ----------------------------------------

  /** Row changes keep a cycle's books if the cycle either re-reads its settled
      sum or has no newly settled row. */
  lemma RowsKeepBooks(a: seq<Reservation>, b: seq<Reservation>, k: Cycle, l: Cycle, c: nat)
    requires |a| == |b| && forall i | 0 <= i < |a| :: RowStep(a[i], b[i])
    requires forall i | 0 <= i < |a| :: !Unsettled(a[i]) ==> a[i].atSettlement <= a[i].estimated
    requires CycleBooks(a, k, c) && l.operational == k.operational
    requires || l.application == Max(k.application, Sum(b, SettledBytes(c)))
             || (l.application == k.application &&
                 forall i | 0 <= i < |a| && a[i].cycle == c && Unsettled(a[i]) :: Unsettled(b[i]))
    ensures CycleBooks(b, l, c)
  {
    SumLe(a, b, SettledBytes(c), SettledBytes(c));
    SumLe(b, b, BookedAtSettlement(c), SettledBytes(c));
    SumLe(b, a, Claim(c), Claim(c));
    if l.application != Max(k.application, Sum(b, SettledBytes(c))) {
      SumLe(b, a, BookedAtSettlement(c), BookedAtSettlement(c));
    }
  }

  predicate CycleMoves(db: Db, next: Db, c: nat)
    requires c < |db.cycles| == |next.cycles| && |db.reservations| == |next.reservations|
  {
    CycleStep(db.cycles[c], next.cycles[c]) &&
    (Exhausted(next.cycles[c]) ==> next.cycles[c].killSwitch) &&
    (|| next.cycles[c].application == Max(db.cycles[c].application, Sum(next.reservations, SettledBytes(c)))
     || (next.cycles[c].application == db.cycles[c].application &&
         forall i | 0 <= i < |db.reservations| && db.reservations[i].cycle == c && Unsettled(db.reservations[i]) ::
           Unsettled(next.reservations[i])))
  }

  predicate RowsMove(db: Db, next: Db) {
    |next.reservations| == |db.reservations| &&
    forall i | 0 <= i < |db.reservations| :: RowStep(db.reservations[i], next.reservations[i])
  }

  lemma RowsKeepCycles(db: Db, next: Db)
    requires CyclesSound(db) && AttemptsSound(db) && RowsMove(db, next) && |next.cycles| == |db.cycles|
    requires forall c | 0 <= c < |db.cycles| :: CycleMoves(db, next, c)
    ensures CyclesSound(next)
  {
    forall i | 0 <= i < |db.reservations|
      ensures !Unsettled(db.reservations[i]) ==> db.reservations[i].atSettlement <= db.reservations[i].estimated
    {
      assert AttemptBooks(db.attempts, db.reservations[i], i);
    }
    forall c | 0 <= c < |next.cycles| ensures CycleSound(next, c) {
      assert CycleSound(db, c) && CycleMoves(db, next, c);
      RowsKeepBooks(db.reservations, next.reservations, db.cycles[c], next.cycles[c], c);
    }
  }

  lemma RowsKeepFit(db: Db, next: Db)
    requires ProfilesFit(db) && RowsMove(db, next) && next.allocations == db.allocations
    ensures ProfilesFit(next)
  {
    forall j | 0 <= j < |next.allocations| ensures ProfileFits(next, next.allocations[j]) {
      var w := ProfileActiveBytes(db.allocations[j].cycle, db.allocations[j].profile);
      assert ProfileFits(db, db.allocations[j]);
      SumLe(next.reservations, db.reservations, w, w);
    }
  }

  lemma RowsKeepLinks(db: Db, next: Db)
    requires Linked(db) && RowsMove(db, next) && |next.cycles| == |db.cycles|
    requires next == db.(reservations := next.reservations, cycles := next.cycles)
    requires forall c | 0 <= c < |db.cycles| :: next.cycles[c].provider == db.cycles[c].provider
    ensures Linked(next)
  {
    forall i | 0 <= i < |next.reservations|
      ensures next.reservations[i].cycle < |next.cycles| && next.reservations[i].profile < |next.profiles| &&
              next.cycles[next.reservations[i].cycle].provider == next.profiles[next.reservations[i].profile].provider
    {
      assert RowStep(db.reservations[i], next.reservations[i]);
    }
  }

  lemma RowsKeepSound(db: Db, next: Db)
    requires Sound(db) && KeysSound(next) && RowsMove(db, next) && |next.cycles| == |db.cycles|
    requires next == db.(reservations := next.reservations, cycles := next.cycles)
    requires forall i | 0 <= i < |db.reservations| && Unsettled(next.reservations[i]) ::
               next.reservations[i].estimated == db.reservations[i].estimated &&
               next.reservations[i].requests == db.reservations[i].requests
    requires forall c | 0 <= c < |db.cycles| :: CycleMoves(db, next, c)
    ensures Sound(next) && Evolves(db, next)
  {
    forall i | 0 <= i < |db.reservations| ensures AttemptBooks(next.attempts, next.reservations[i], i) {
      assert AttemptBooks(db.attempts, db.reservations[i], i);
      assert RowStep(db.reservations[i], next.reservations[i]);
    }
    forall c | 0 <= c < |db.cycles| ensures CycleStep(db.cycles[c], next.cycles[c]) {
      assert CycleMoves(db, next, c);
    }
    RowsKeepCycles(db, next);
    RowsKeepFit(db, next);
    RowsKeepLinks(db, next);
  }

  /** Changing cycles in place, without opening one, keeps the unique keys. */
  lemma CyclesKeepKeys(db: Db, next: Db)
    requires KeysSound(db) && next.profiles == db.profiles && |next.cycles| == |db.cycles|
    requires forall c | 0 <= c < |db.cycles| ::
               next.cycles[c].provider == db.cycles[c].provider && next.cycles[c].start == db.cycles[c].start &&
               (next.cycles[c].lifecycle == ActiveCycle ==> db.cycles[c].lifecycle == ActiveCycle)
    ensures KeysSound(next)
  {
  }

  lemma SettledMoves(db: Db, rows: seq<Reservation>, c: nat)
    requires CyclesSound(db) && |rows| == |db.reservations| && c < |db.cycles|
    requires forall i | 0 <= i < |rows| && db.reservations[i].cycle != c :: rows[i] == db.reservations[i]
    ensures forall j | 0 <= j < |db.cycles| :: CycleMoves(db, SettleCycle(db.(reservations := rows), c), j)
  {
    var next := SettleCycle(db.(reservations := rows), c);
    forall j | 0 <= j < |db.cycles| ensures CycleMoves(db, next, j) {
      assert CycleSound(db, j);
    }
  }

  lemma CloseMoves(db: Db, id: nat, used: nat, requests: nat)
    requires CyclesSound(db) && AttemptsSound(db) && Linked(db) && CloseReservation(db, id, used, requests) != db
    ensures var next := CloseReservation(db, id, used, requests);
            RowsMove(db, next) && |next.cycles| == |db.cycles| &&
            forall c | 0 <= c < |db.cycles| :: CycleMoves(db, next, c)
  {
    var next := CloseReservation(db, id, used, requests);
    assert AttemptBooks(db.attempts, db.reservations[id], id);
    SettledMoves(db, next.reservations, db.reservations[id].cycle);
  }

  lemma CloseFrames(db: Db, id: nat, used: nat, requests: nat)
    requires KeysSound(db)
    ensures var next := CloseReservation(db, id, used, requests);
            KeysSound(next) && next == db.(reservations := next.reservations, cycles := next.cycles) &&
            |next.cycles| == |db.cycles| && |next.reservations| == |db.reservations| &&
            forall i | 0 <= i < |db.reservations| && Unsettled(next.reservations[i]) ::
              next.reservations[i].estimated == db.reservations[i].estimated &&
              next.reservations[i].requests == db.reservations[i].requests
  {
    CyclesKeepKeys(db, CloseReservation(db, id, used, requests));
  }

  lemma CloseKeepsSound(db: Db, id: nat, used: nat, requests: nat)
    requires Sound(db)
    ensures Sound(CloseReservation(db, id, used, requests)) && Evolves(db, CloseReservation(db, id, used, requests))
  {
    var next := CloseReservation(db, id, used, requests);
    if next != db {
      CloseMoves(db, id, used, requests);
      CloseFrames(db, id, used, requests);
      RowsKeepSound(db, next);
    } else {
      UnchangedEvolves(db);
    }
  }

  lemma StaleMoves(db: Db, candidates: set<nat>, confirmed: set<nat>)
    requires CyclesSound(db)
    ensures var next := CloseStale(db, candidates, confirmed);
            RowsMove(db, next) && |next.cycles| == |db.cycles| &&
            forall c | 0 <= c < |db.cycles| :: CycleMoves(db, next, c)
  {
    var next := CloseStale(db, candidates, confirmed);
    forall c | 0 <= c < |db.cycles| ensures CycleMoves(db, next, c) {
      assert CycleSound(db, c);
      if !StaleCycle(db, candidates, confirmed, c) {
        assert forall i | 0 <= i < |db.reservations| && db.reservations[i].cycle == c ::
            !StaleRow(db, candidates, confirmed, i);
      }
    }
  }

  lemma StaleKeepsSound(db: Db, candidates: set<nat>, confirmed: set<nat>)
    requires Sound(db)
    ensures Sound(CloseStale(db, candidates, confirmed)) && Evolves(db, CloseStale(db, candidates, confirmed))
  {
    var next := CloseStale(db, candidates, confirmed);
    StaleMoves(db, candidates, confirmed);
    CyclesKeepKeys(db, next);
    RowsKeepSound(db, next);
  }

  /** Every event that only touches flags, counters and lifecycles of cycles,
      and revocation marks of reservations. */
  lemma FlagsKeepSound(db: Db, next: Db)
    requires Sound(db)
    requires next == db.(reservations := next.reservations, cycles := next.cycles)
    requires |next.reservations| == |db.reservations| && |next.cycles| == |db.cycles|
    requires forall i | 0 <= i < |db.reservations| ::
               next.reservations[i] == db.reservations[i] || next.reservations[i] == RevokeRow(db.reservations[i])
    requires forall c | 0 <= c < |db.cycles| ::
               CycleStep(db.cycles[c], next.cycles[c]) && next.cycles[c].application == db.cycles[c].application &&
               (next.cycles[c].lifecycle == ActiveCycle ==> db.cycles[c].lifecycle == ActiveCycle) &&
               ((Exhausted(db.cycles[c]) ==> db.cycles[c].killSwitch) ==>
                  Exhausted(next.cycles[c]) ==> next.cycles[c].killSwitch)
    ensures Sound(next) && Evolves(db, next)
  {
    forall c | 0 <= c < |db.cycles| ensures CycleMoves(db, next, c) {
      assert CycleSound(db, c);
    }
    CyclesKeepKeys(db, next);
    RowsKeepSound(db, next);
  }

  // ---- attempts ----------------------------------------------------------

  lemma OtherAttempt(attempts: seq<Attempt>, i: nat, b: Attempt, id: nat)
    requires i < |attempts| && b.reservation == attempts[i].reservation && id != b.reservation
    ensures Sum(attempts[i := b], ActualBytes(id)) == Sum(attempts, ActualBytes(id))
    ensures Sum(attempts[i := b], ActualRequests(id)) == Sum(attempts, ActualRequests(id))
    ensures Sum(attempts[i := b], PendingBytes(id)) == Sum(attempts, PendingBytes(id))
    ensures Sum(attempts[i := b], OverrunBytes(id)) == Sum(attempts, OverrunBytes(id))
  {
    SumUpdate(attempts, i, b, ActualBytes(id));
    SumUpdate(attempts, i, b, ActualRequests(id));
    SumUpdate(attempts, i, b, PendingBytes(id));
    SumUpdate(attempts, i, b, OverrunBytes(id));
  }

  lemma BookKeepsAttempts(db: Db, id: nat, actual: nat, requests: nat)
    requires AttemptsSound(db) && Linked(db) && id < |db.attempts| && db.attempts[id].state.Authorized?
    ensures AttemptsSound(ReconcileAttempt(db, id, actual, requests).0)
  {
    var next := ReconcileAttempt(db, id, actual, requests).0;
    var b := next.attempts[id];
    var owner := b.reservation;
    forall i | 0 <= i < |db.reservations| ensures AttemptBooks(next.attempts, next.reservations[i], i) {
      assert AttemptBooks(db.attempts, db.reservations[i], i);
      if i != owner {
        OtherAttempt(db.attempts, id, b, i);
      } else {
        SumUpdate(db.attempts, id, b, ActualBytes(owner));
        SumUpdate(db.attempts, id, b, ActualRequests(owner));
        SumUpdate(db.attempts, id, b, PendingBytes(owner));
        SumUpdate(db.attempts, id, b, OverrunBytes(owner));
      }
    }
  }

  lemma BookMoves(db: Db, id: nat, actual: nat, requests: nat)
    requires CyclesSound(db) && id < |db.attempts| && db.attempts[id].state.Authorized?
    ensures var next := ReconcileAttempt(db, id, actual, requests).0;
            RowsMove(db, next) && Evolves(db, next) && forall c | 0 <= c < |db.cycles| :: CycleMoves(db, next, c)
  {
    var next := ReconcileAttempt(db, id, actual, requests).0;
    forall c | 0 <= c < |db.cycles| ensures CycleMoves(db, next, c) {
      assert CycleSound(db, c);
    }
  }

  /** Booking moves only counters of one reservation and the state of one attempt. */
  lemma BookFrames(db: Db, id: nat, actual: int, requests: int)
    ensures var next := ReconcileAttempt(db, id, actual, requests).0;
            next == db.(reservations := next.reservations, attempts := next.attempts) &&
            |next.reservations| == |db.reservations| && |next.attempts| == |db.attempts| &&
            (forall i | 0 <= i < |db.reservations| ::
               next.reservations[i].cycle == db.reservations[i].cycle &&
               next.reservations[i].profile == db.reservations[i].profile) &&
            (forall i | 0 <= i < |db.attempts| :: next.attempts[i].reservation == db.attempts[i].reservation)
  {
  }

  lemma BookKeepsLinks(db: Db, next: Db)
    requires Linked(db) && next == db.(reservations := next.reservations, attempts := next.attempts)
    requires |next.reservations| == |db.reservations| && |next.attempts| == |db.attempts|
    requires forall i | 0 <= i < |db.reservations| ::
               next.reservations[i].cycle == db.reservations[i].cycle &&
               next.reservations[i].profile == db.reservations[i].profile
    requires forall i | 0 <= i < |db.attempts| :: next.attempts[i].reservation == db.attempts[i].reservation
    ensures Linked(next)
  {
  }

  lemma SameTablesKeepKeys(db: Db, next: Db)
    requires KeysSound(db) && AllocationKeys(db) && CapacitySound(db)
    requires next.cycles == db.cycles && next.profiles == db.profiles && next.allocations == db.allocations
    ensures KeysSound(next) && AllocationKeys(next) && CapacitySound(next)
  {
  }

  lemma BookKeepsSound(db: Db, id: nat, actual: int, requests: int)
    requires Sound(db)
    ensures Sound(ReconcileAttempt(db, id, actual, requests).0)
    ensures Evolves(db, ReconcileAttempt(db, id, actual, requests).0)
  {
    var next := ReconcileAttempt(db, id, actual, requests).0;
    UnchangedEvolves(db);
    BookFrames(db, id, actual, requests);
    BookKeepsLinks(db, next);
    SameTablesKeepKeys(db, next);
    if next != db {
      BookKeepsAttempts(db, id, actual, requests);
      BookMoves(db, id, actual, requests);
      RowsKeepCycles(db, next);
      RowsKeepFit(db, next);
    }
  }

  /** Attempts enter no sum but their own reservation's. */
  lemma AttemptsKeepSound(db: Db, next: Db)
    requires Sound(db) && next == db.(attempts := next.attempts) && AttemptsSound(next)
    requires forall a | 0 <= a < |next.attempts| :: next.attempts[a].reservation < |db.reservations|
    ensures Sound(next)
  {
    RowsKeepFit(db, next);
    assert forall c | 0 <= c < |db.cycles| :: CycleSound(db, c) ==> CycleSound(next, c);
  }

  lemma AddedAttempt(db: Db, b: Attempt)
    requires AttemptsSound(db) && b.reservation < |db.reservations| && b.state.Authorized?
    requires db.reservations[b.reservation].estimated + Sum(db.attempts, PendingBytes(b.reservation)) + b.estimated
             <= db.reservations[b.reservation].reserved
    ensures AttemptsSound(db.(attempts := db.attempts + [b]))
  {
    forall i | 0 <= i < |db.reservations| ensures AttemptBooks(db.attempts + [b], db.reservations[i], i) {
      assert AttemptBooks(db.attempts, db.reservations[i], i);
      SumAppend(db.attempts, b, ActualBytes(i));
      SumAppend(db.attempts, b, ActualRequests(i));
      SumAppend(db.attempts, b, PendingBytes(i));
      SumAppend(db.attempts, b, OverrunBytes(i));
      SumNonNegative(db.attempts, OverrunBytes(i));
    }
  }

  lemma AuthorizeKeepsSound(db: Db, now: int, id: nat, estimate: int, maximum: Option<int>)
    requires Sound(db)
    ensures Sound(Authorize(db, now, id, estimate, maximum).0)
    ensures Evolves(db, Authorize(db, now, id, estimate, maximum).0)
  {
    var next := Authorize(db, now, id, estimate, maximum).0;
    UnchangedEvolves(db);
    if next != db {
      AddedAttempt(db, Attempt(id, estimate, Authorized));
      AttemptsKeepSound(db, next);
    }
  }

  lemma ReleaseKeepsSound(db: Db, id: nat)
    requires Sound(db)
    ensures Sound(ReleaseAttempt(db, id).0) && Evolves(db, ReleaseAttempt(db, id).0)
  {
    var next := ReleaseAttempt(db, id).0;
    UnchangedEvolves(db);
    if next != db {
      ReleaseKeepsAttempts(db, id);
      AttemptsKeepSound(db, next);
    }
  }

  lemma ReleaseKeepsAttempts(db: Db, id: nat)
    requires AttemptsSound(db) && id < |db.attempts| && db.attempts[id].state.Authorized?
    ensures AttemptsSound(ReleaseAttempt(db, id).0)
  {
    var b := db.attempts[id].(state := Released);
    forall i | 0 <= i < |db.reservations| ensures AttemptBooks(db.attempts[id := b], db.reservations[i], i) {
      assert AttemptBooks(db.attempts, db.reservations[i], i);
      if i != b.reservation {
        OtherAttempt(db.attempts, id, b, i);
      } else {
        SumUpdate(db.attempts, id, b, ActualBytes(i));
        SumUpdate(db.attempts, id, b, ActualRequests(i));
        SumUpdate(db.attempts, id, b, PendingBytes(i));
        SumUpdate(db.attempts, id, b, OverrunBytes(i));
      }
    }
  }

  // ---- reserve -----------------------------------------------------------

  lemma AddedReservationKeepsCycles(db: Db, row: Reservation)
    requires CyclesSound(db) && row.cycle < |db.cycles| && row.state == Active
    requires db.cycles[row.cycle].application + Sum(db.reservations, ActiveBytes(row.cycle)) + row.reserved
             <= db.cycles[row.cycle].operational
    ensures CyclesSound(db.(reservations := db.reservations + [row]))
  {
    forall c | 0 <= c < |db.cycles| ensures CycleSound(db.(reservations := db.reservations + [row]), c) {
      assert CycleSound(db, c);
      SumAppend(db.reservations, row, BookedAtSettlement(c));
      SumAppend(db.reservations, row, SettledBytes(c));
      SumAppend(db.reservations, row, Claim(c));
      if c == row.cycle {
        SettledClaimsFit(db, c);
      }
    }
  }

  lemma AddedReservationKeepsFit(db: Db, row: Reservation)
    requires ProfilesFit(db)
    requires forall a | a in db.allocations && a.cycle == row.cycle && a.profile == row.profile ::
               Sum(db.reservations, ProfileActiveBytes(row.cycle, row.profile)) + row.reserved <= a.bytes
    ensures ProfilesFit(db.(reservations := db.reservations + [row]))
  {
    forall j | 0 <= j < |db.allocations|
      ensures ProfileFits(db.(reservations := db.reservations + [row]), db.allocations[j])
    {
      var a := db.allocations[j];
      assert ProfileFits(db, a) && a in db.allocations;
      SumAppend(db.reservations, row, ProfileActiveBytes(a.cycle, a.profile));
    }
  }

  lemma AddedReservationKeepsAttempts(db: Db, row: Reservation)
    requires AttemptsSound(db) && Linked(db) && Unsettled(row) && row.estimated == row.requests == 0
    ensures AttemptsSound(db.(reservations := db.reservations + [row]))
  {
    var i := |db.reservations|;
    SumZero(db.attempts, ActualBytes(i));
    SumZero(db.attempts, ActualRequests(i));
    SumZero(db.attempts, PendingBytes(i));
    SumZero(db.attempts, OverrunBytes(i));
  }

  lemma AddedReservationKeepsLinks(db: Db, row: Reservation)
    requires Linked(db) && KeysSound(db) && AllocationKeys(db) && CapacitySound(db)
    requires row.cycle < |db.cycles| && row.profile < |db.profiles|
    requires db.cycles[row.cycle].provider == db.profiles[row.profile].provider
    ensures var next := db.(reservations := db.reservations + [row]);
            Linked(next) && KeysSound(next) && AllocationKeys(next) && CapacitySound(next)
  {
  }

  lemma AddedReservationKeepsSound(db: Db, row: Reservation)
    requires Sound(db) && row.cycle < |db.cycles| && row.profile < |db.profiles|
    requires row.state == Active && row.estimated == row.requests == 0
    requires db.cycles[row.cycle].provider == db.profiles[row.profile].provider
    requires db.cycles[row.cycle].application + Sum(db.reservations, ActiveBytes(row.cycle)) + row.reserved
             <= db.cycles[row.cycle].operational
    requires forall a | a in db.allocations && a.cycle == row.cycle && a.profile == row.profile ::
               Sum(db.reservations, ProfileActiveBytes(row.cycle, row.profile)) + row.reserved <= a.bytes
    ensures Sound(db.(reservations := db.reservations + [row]))
  {
    AddedReservationKeepsLinks(db, row);
    AddedReservationKeepsCycles(db, row);
    AddedReservationKeepsFit(db, row);
    AddedReservationKeepsAttempts(db, row);
  }

  /** What admission leaves room for. */
  lemma AdmittedFits(db: Db, clock: Clock, q: ReserveRequest)
    requires AllocationKeys(db) && Admission(db, clock, q).Ok?
    ensures var c := Admission(db, clock, q).value;
            var row := NewReservation(q, c, clock.db);
            row.cycle < |db.cycles| && row.profile < |db.profiles| && row.state == Active &&
            db.cycles[row.cycle].provider == db.profiles[row.profile].provider &&
            db.cycles[row.cycle].application + Sum(db.reservations, ActiveBytes(row.cycle)) + row.reserved
              <= db.cycles[row.cycle].operational &&
            forall a | a in db.allocations && a.cycle == row.cycle && a.profile == row.profile ::
              Sum(db.reservations, ProfileActiveBytes(row.cycle, row.profile)) + row.reserved <= a.bytes
  {
    UniqueAllocation(db, Admission(db, clock, q).value, q.profile.value);
  }

  lemma AddedReservationEvolves(db: Db, row: Reservation)
    requires Evolves(db, db)
    ensures Evolves(db, db.(reservations := db.reservations + [row]))
  {
  }

  lemma ReserveKeepsSound(db: Db, clock: Clock, q: ReserveRequest)
    requires Sound(db)
    ensures Sound(Reserve(db, clock, q).0) && Evolves(db, Reserve(db, clock, q).0)
  {
    UnchangedEvolves(db);
    var verdict := Admission(db, clock, q);
    if verdict.Ok? {
      AdmittedFits(db, clock, q);
      AddedReservationKeepsSound(db, NewReservation(q, verdict.value, clock.db));
      AddedReservationEvolves(db, NewReservation(q, verdict.value, clock.db));
    }
  }

  lemma UniqueAllocation(db: Db, c: nat, p: nat)
    requires AllocationKeys(db)
    ensures var found := FindAllocation(db.allocations, c, p);
            forall a | a in db.allocations && a.cycle == c && a.profile == p ::
              found.Some? && a == db.allocations[found.value]
  {
  }

  /** Claims are covered by what was accounted and what is active. */
  lemma SettledClaimsFit(db: Db, c: nat)
    requires c < |db.cycles| && CycleSound(db, c)
    ensures Sum(db.reservations, Claim(c)) <= db.cycles[c].application + Sum(db.reservations, ActiveBytes(c))
  {
    var settledClaims := (r: Reservation) => if r.cycle == c && !Unsettled(r) then Min(r.atSettlement, r.reserved) else 0;
    SumSplit(db.reservations, settledClaims, ActiveBytes(c), Claim(c));
    SumLe(db.reservations, db.reservations, settledClaims, BookedAtSettlement(c));
  }

  // ---- new cycles --------------------------------------------------------

  lemma NewCycleKeepsCycles(db: Db, k: Cycle)
    requires CyclesSound(db) && Linked(db)
    requires k.application == 0 && (Exhausted(k) ==> k.killSwitch)
    ensures CyclesSound(db.(cycles := db.cycles + [k]))
  {
    var next := db.(cycles := db.cycles + [k]);
    NewCycleIsEmpty(db);
    forall c | 0 <= c < |next.cycles| ensures CycleSound(next, c) {
      if c < |db.cycles| {
        assert CycleSound(db, c);
      }
    }
  }

  lemma NewCycleKeepsCapacity(db: Db, k: Cycle)
    requires Linked(db) && AllocationKeys(db) && CapacitySound(db) && k.unmanaged <= k.operational
    ensures var next := db.(cycles := db.cycles + [k]);
            Linked(next) && AllocationKeys(next) && CapacitySound(next)
  {
    NewCycleIsEmpty(db);
  }

  lemma NewCycleEvolves(db: Db, k: Cycle)
    requires Evolves(db, db)
    ensures Evolves(db, db.(cycles := db.cycles + [k]))
  {
  }

  lemma NewCycleKeepsSound(db: Db, k: Cycle)
    requires Sound(db) && KeysSound(db.(cycles := db.cycles + [k]))
    requires k.application == 0 && k.unmanaged <= k.operational && (Exhausted(k) ==> k.killSwitch)
    ensures Sound(db.(cycles := db.cycles + [k])) && Evolves(db, db.(cycles := db.cycles + [k]))
  {
    var next := db.(cycles := db.cycles + [k]);
    UnchangedEvolves(db);
    NewCycleEvolves(db, k);
    NewCycleKeepsCycles(db, k);
    NewCycleKeepsCapacity(db, k);
    RowsKeepFit(db, next);
    SameAttemptsKeepSound(db, next);
  }

  lemma SameAttemptsKeepSound(db: Db, next: Db)
    requires AttemptsSound(db) && next.reservations == db.reservations && next.attempts == db.attempts
    ensures AttemptsSound(next)
  {
  }

  lemma NewCycleIsEmpty(db: Db)
    requires Linked(db)
    ensures Sum(db.reservations, BookedAtSettlement(|db.cycles|)) == 0
    ensures Sum(db.reservations, SettledBytes(|db.cycles|)) == 0
    ensures Sum(db.reservations, Claim(|db.cycles|)) == 0
    ensures Sum(db.allocations, AllocatedBytes(|db.cycles|)) == 0
  {
    SumZero(db.reservations, BookedAtSettlement(|db.cycles|));
    SumZero(db.reservations, SettledBytes(|db.cycles|));
    SumZero(db.reservations, Claim(|db.cycles|));
    SumZero(db.allocations, AllocatedBytes(|db.cycles|));
  }

  lemma CloseExpiredKeepsSound(db: Db, provider: string, now: int)
    requires Sound(db)
    ensures Sound(CloseExpired(db, provider, now)) && Evolves(db, CloseExpired(db, provider, now))
  {
    FlagsKeepSound(db, CloseExpired(db, provider, now));
  }

  lemma ProposeKeepsSound(db: Db, provider: string, start: int, end: int, purchased: nat)
    requires Sound(db)
    ensures Sound(ProposeCycle(db, provider, start, end, purchased))
    ensures Evolves(db, ProposeCycle(db, provider, start, end, purchased))
  {
    var next := ProposeCycle(db, provider, start, end, purchased);
    if next != db {
      NewCycleKeepsSound(db, next.cycles[|db.cycles|]);
    } else {
      UnchangedEvolves(db);
    }
  }

  lemma UnchangedEvolves(db: Db)
    requires Sound(db)
    ensures Evolves(db, db)
  {
    assert forall i | 0 <= i < |db.reservations| :: AttemptBooks(db.attempts, db.reservations[i], i);
  }

  /** After the sweep no cycle of the provider is active, so one may open. */
  lemma OpenKeepsKeys(db: Db, c: nat, provider: string, confirmed: bool, now: int)
    requires KeysSound(db)
    ensures KeysSound(OpenCycle(db, c, provider, confirmed, now))
  {
    var next := OpenCycle(db, c, provider, confirmed, now);
    if next != db {
      var swept := CloseExpired(db, provider, now);
      assert forall i | 0 <= i < |swept.cycles| :: swept.cycles[i] in swept.cycles;
      CyclesKeepKeys(db, swept);
    }
  }

  lemma OpenMoves(db: Db, c: nat, provider: string, confirmed: bool, now: int)
    requires CyclesSound(db) && OpenCycle(db, c, provider, confirmed, now) != db && AttemptsSound(db)
    ensures var next := OpenCycle(db, c, provider, confirmed, now);
            RowsMove(db, next) && |next.cycles| == |db.cycles| && next == db.(cycles := next.cycles) &&
            forall i | 0 <= i < |db.cycles| :: CycleMoves(db, next, i)
  {
    var next := OpenCycle(db, c, provider, confirmed, now);
    forall i | 0 <= i < |db.cycles| ensures CycleMoves(db, next, i) {
      assert CycleSound(db, i);
    }
  }

  lemma OpenKeepsSound(db: Db, c: nat, provider: string, confirmed: bool, now: int)
    requires Sound(db)
    ensures Sound(OpenCycle(db, c, provider, confirmed, now))
    ensures Evolves(db, OpenCycle(db, c, provider, confirmed, now))
  {
    var next := OpenCycle(db, c, provider, confirmed, now);
    if next != db {
      OpenKeepsKeys(db, c, provider, confirmed, now);
      OpenMoves(db, c, provider, confirmed, now);
      RowsKeepSound(db, next);
    } else {
      UnchangedEvolves(db);
    }
  }

  lemma EvolvesTransitive(a: Db, b: Db, c: Db)
    requires Evolves(a, b) && Evolves(b, c)
    ensures Evolves(a, c)
  {
    forall i | 0 <= i < |a.reservations| ensures RowStep(a.reservations[i], c.reservations[i]) {
      assert RowStep(a.reservations[i], b.reservations[i]) && RowStep(b.reservations[i], c.reservations[i]);
    }
    forall i | 0 <= i < |a.cycles| ensures CycleStep(a.cycles[i], c.cycles[i]) {
      assert CycleStep(a.cycles[i], b.cycles[i]) && CycleStep(b.cycles[i], c.cycles[i]);
    }
    forall i | 0 <= i < |a.attempts| ensures AttemptStep(a.attempts[i], c.attempts[i]) {
      assert AttemptStep(a.attempts[i], b.attempts[i]) && AttemptStep(b.attempts[i], c.attempts[i]);
    }
  }

  lemma LegacyUpsertFlags(db: Db, start: int, end: int, reported: int, now: int)
    requires KeyTaken(db, DECODO, start) && LegacyOpenCycle(db, start, end, reported, now) != db
    ensures var swept := CloseExpired(db, DECODO, now);
            var next := LegacyOpenCycle(db, start, end, reported, now);
            next == swept.(cycles := next.cycles) && |next.cycles| == |swept.cycles| &&
            forall c | 0 <= c < |swept.cycles| ::
              CycleStep(swept.cycles[c], next.cycles[c]) && next.cycles[c].application == swept.cycles[c].application &&
              (next.cycles[c].lifecycle == ActiveCycle ==> swept.cycles[c].lifecycle == ActiveCycle) &&
              ((Exhausted(swept.cycles[c]) ==> swept.cycles[c].killSwitch) ==>
                 Exhausted(next.cycles[c]) ==> next.cycles[c].killSwitch)
  {
  }

  lemma LegacyUpsertKeepsSound(db: Db, start: int, end: int, reported: int, now: int)
    requires Sound(db) && KeyTaken(db, DECODO, start) && LegacyOpenCycle(db, start, end, reported, now) != db
    ensures Sound(LegacyOpenCycle(db, start, end, reported, now))
    ensures Evolves(db, LegacyOpenCycle(db, start, end, reported, now))
  {
    var next := LegacyOpenCycle(db, start, end, reported, now);
    var swept := CloseExpired(db, DECODO, now);
    CloseExpiredKeepsSound(db, DECODO, now);
    LegacyUpsertFlags(db, start, end, reported, now);
    FlagsKeepSound(swept, next);
    EvolvesTransitive(db, swept, next);
  }

  lemma LegacyInsertKeepsSound(db: Db, start: int, end: int, reported: int, now: int)
    requires Sound(db) && !KeyTaken(db, DECODO, start) && LegacyOpenCycle(db, start, end, reported, now) != db
    ensures Sound(LegacyOpenCycle(db, start, end, reported, now))
    ensures Evolves(db, LegacyOpenCycle(db, start, end, reported, now))
  {
    var next := LegacyOpenCycle(db, start, end, reported, now);
    var swept := CloseExpired(db, DECODO, now);
    CloseExpiredKeepsSound(db, DECODO, now);
    LegacyOpenKeepsKeys(db, start, end, reported, now);
    NewCycleKeepsSound(swept, next.cycles[|db.cycles|]);
    EvolvesTransitive(db, swept, next);
  }

  lemma LegacyOpenKeepsSound(db: Db, start: int, end: int, reported: int, now: int)
    requires Sound(db)
    ensures Sound(LegacyOpenCycle(db, start, end, reported, now))
    ensures Evolves(db, LegacyOpenCycle(db, start, end, reported, now))
  {
    if LegacyOpenCycle(db, start, end, reported, now) == db {
      UnchangedEvolves(db);
    } else if KeyTaken(db, DECODO, start) {
      LegacyUpsertKeepsSound(db, start, end, reported, now);
    } else {
      LegacyInsertKeepsSound(db, start, end, reported, now);
    }
  }

  lemma SweptStaysSwept(db: Db, now: int)
    ensures var swept := CloseExpired(db, DECODO, now);
            |swept.cycles| == |db.cycles| && swept.profiles == db.profiles &&
            forall i | 0 <= i < |db.cycles| ::
              swept.cycles[i].provider == db.cycles[i].provider && swept.cycles[i].start == db.cycles[i].start &&
              (swept.cycles[i].lifecycle == ActiveCycle ==> db.cycles[i].lifecycle == ActiveCycle)
  {
  }

  lemma InsertedCycleKeepsKeys(db: Db, k: Cycle)
    requires KeysSound(db) && !KeyTaken(db, k.provider, k.start) && !ActiveExists(db, k.provider)
    ensures KeysSound(db.(cycles := db.cycles + [k]))
  {
    assert forall i | 0 <= i < |db.cycles| :: db.cycles[i] in db.cycles;
  }

  lemma KeyNotTakenAfterSweep(db: Db, start: int, now: int)
    requires !KeyTaken(db, DECODO, start)
    ensures !KeyTaken(CloseExpired(db, DECODO, now), DECODO, start)
  {
    SweptStaysSwept(db, now);
    var swept := CloseExpired(db, DECODO, now);
    forall k | k in swept.cycles ensures !(k.provider == DECODO && k.start == start) {
      var i :| 0 <= i < |swept.cycles| && swept.cycles[i] == k;
      assert db.cycles[i] in db.cycles;
    }
  }

  lemma LegacyOpenKeepsKeys(db: Db, start: int, end: int, reported: int, now: int)
    requires KeysSound(db) && |LegacyOpenCycle(db, start, end, reported, now).cycles| > |db.cycles|
    ensures KeysSound(LegacyOpenCycle(db, start, end, reported, now))
  {
    var swept := CloseExpired(db, DECODO, now);
    SweptStaysSwept(db, now);
    CyclesKeepKeys(db, swept);
    KeyNotTakenAfterSweep(db, start, now);
    InsertedCycleKeepsKeys(swept, LegacyOpenCycle(db, start, end, reported, now).cycles[|db.cycles|]);
  }

  // ---- allocations and profiles ------------------------------------------

  lemma CreateProfileKeepsSound(db: Db, provider: string, name: string, display: string, bytes: int)
    requires Sound(db)
    ensures Sound(CreateProfile(db, provider, name, display, bytes).0)
    ensures Evolves(db, CreateProfile(db, provider, name, display, bytes).0)
  {
    var next := CreateProfile(db, provider, name, display, bytes).0;
    UnchangedEvolves(db);
    if next != db {
      AddedProfileKeepsSound(db, next.profiles[|db.profiles|], next.allocations[|db.allocations|]);
    }
  }

  lemma AddedAllocation(db: Db, a: Allocation)
    requires CapacitySound(db) && ProfilesFit(db) && Linked(db) && a.profile == |db.profiles| && a.cycle < |db.cycles|
    requires Sum(db.allocations, AllocatedBytes(a.cycle)) + a.bytes + db.cycles[a.cycle].unmanaged
             <= db.cycles[a.cycle].operational
    ensures CapacitySound(db.(allocations := db.allocations + [a]))
    ensures ProfilesFit(db.(allocations := db.allocations + [a]))
  {
    var next := db.(allocations := db.allocations + [a]);
    forall c | 0 <= c < |db.cycles|
      ensures Sum(next.allocations, AllocatedBytes(c)) + db.cycles[c].unmanaged <= db.cycles[c].operational
    {
      SumAppend(db.allocations, a, AllocatedBytes(c));
    }
    SumZero(db.reservations, ProfileActiveBytes(a.cycle, a.profile));
    forall j | 0 <= j < |next.allocations| ensures ProfileFits(next, next.allocations[j]) {
      assert j < |db.allocations| ==> ProfileFits(db, db.allocations[j]);
    }
  }

  lemma AddedProfileKeepsKeys(db: Db, p: Profile)
    requires KeysSound(db) && !NameTaken(db, p.name)
    ensures KeysSound(db.(profiles := db.profiles + [p]))
  {
    assert forall i | 0 <= i < |db.profiles| :: db.profiles[i] in db.profiles;
  }

  lemma AddedProfileKeepsLinks(db: Db, p: Profile, a: Allocation)
    requires Linked(db) && AllocationKeys(db) && a.profile == |db.profiles| && a.cycle < |db.cycles|
    ensures var next := db.(profiles := db.profiles + [p], allocations := db.allocations + [a]);
            Linked(next) && AllocationKeys(next)
  {
  }

  lemma AddedProfileKeepsSound(db: Db, p: Profile, a: Allocation)
    requires Sound(db) && !NameTaken(db, p.name) && a.profile == |db.profiles| && a.cycle < |db.cycles|
    requires Sum(db.allocations, AllocatedBytes(a.cycle)) + a.bytes + db.cycles[a.cycle].unmanaged
             <= db.cycles[a.cycle].operational
    ensures Sound(db.(profiles := db.profiles + [p], allocations := db.allocations + [a]))
  {
    AddedAllocation(db, a);
    AddedProfileKeepsKeys(db, p);
    AddedProfileKeepsLinks(db, p, a);
    SameRowsKeepSound(db, db.(profiles := db.profiles + [p], allocations := db.allocations + [a]));
  }

  /** Books of cycles and attempts depend on no other table. */
  lemma SameRowsKeepSound(db: Db, next: Db)
    requires CyclesSound(db) && AttemptsSound(db)
    requires next.cycles == db.cycles && next.reservations == db.reservations && next.attempts == db.attempts
    ensures CyclesSound(next) && AttemptsSound(next)
  {
    assert forall c | 0 <= c < |db.cycles| :: CycleSound(db, c) ==> CycleSound(next, c);
  }

  /** The cycle sum after one profile's only allocation changes. */
  lemma AllocationSum(allocations: seq<Allocation>, i: nat, bytes: nat)
    requires i < |allocations|
    requires forall j | 0 <= j < |allocations| && j != i ::
               !(allocations[j].cycle == allocations[i].cycle && allocations[j].profile == allocations[i].profile)
    ensures Sum(allocations[i := allocations[i].(bytes := bytes)], AllocatedBytes(allocations[i].cycle)) ==
            Sum(allocations, OtherAllocatedBytes(allocations[i].cycle, allocations[i].profile)) + bytes
  {
    var c, p := allocations[i].cycle, allocations[i].profile;
    var changed := allocations[i := allocations[i].(bytes := bytes)];
    var zeroed := allocations[i := allocations[i].(bytes := 0)];
    SumUpdate(allocations, i, allocations[i].(bytes := 0), OtherAllocatedBytes(c, p));
    SumLe(zeroed, zeroed, OtherAllocatedBytes(c, p), AllocatedBytes(c));
    SumLe(zeroed, zeroed, AllocatedBytes(c), OtherAllocatedBytes(c, p));
    SumUpdate(zeroed, i, allocations[i].(bytes := bytes), AllocatedBytes(c));
    assert zeroed[i := allocations[i].(bytes := bytes)] == changed;
  }

  lemma IdleProfile(db: Db, c: nat, p: nat)
    requires !ProfileBusy(db, p)
    ensures Sum(db.reservations, ProfileActiveBytes(c, p)) == 0
  {
    assert forall i | 0 <= i < |db.reservations| :: db.reservations[i] in db.reservations;
    SumZero(db.reservations, ProfileActiveBytes(c, p));
  }

  lemma ChangedAllocationKeepsCapacity(db: Db, row: nat, bytes: nat)
    requires AllocationKeys(db) && CapacitySound(db) && row < |db.allocations|
    requires var a := db.allocations[row];
             a.cycle < |db.cycles| &&
             Sum(db.allocations, OtherAllocatedBytes(a.cycle, a.profile)) + db.cycles[a.cycle].unmanaged + bytes
             <= db.cycles[a.cycle].operational
    ensures CapacitySound(db.(allocations := db.allocations[row := db.allocations[row].(bytes := bytes)]))
  {
    var changed := db.allocations[row].(bytes := bytes);
    AllocationSum(db.allocations, row, bytes);
    forall c | 0 <= c < |db.cycles|
      ensures Sum(db.allocations[row := changed], AllocatedBytes(c)) + db.cycles[c].unmanaged <= db.cycles[c].operational
    {
      SumUpdate(db.allocations, row, changed, AllocatedBytes(c));
    }
  }

  lemma AllocationKeepsSound(db: Db, p: nat, bytes: int)
    requires Sound(db)
    ensures Sound(ChangeAllocation(db, p, bytes, ReadAllocation(db, p)))
    ensures Evolves(db, ChangeAllocation(db, p, bytes, ReadAllocation(db, p)))
  {
    var before := ReadAllocation(db, p);
    var next := ChangeAllocation(db, p, bytes, before);
    UnchangedEvolves(db);
    if next != db {
      var row := before.row.value;
      ChangedAllocationKeepsCapacity(db, row, bytes);
      forall j | 0 <= j < |next.allocations| ensures ProfileFits(next, next.allocations[j]) {
        assert ProfileFits(db, db.allocations[j]);
        if j == row && !before.busy {
          IdleProfile(db, db.allocations[row].cycle, p);
        }
      }
      AllocationsKeepSound(db, next);
    }
  }

  lemma AllocationsKeepSound(db: Db, next: Db)
    requires Sound(db) && next == db.(allocations := next.allocations) && |next.allocations| == |db.allocations|
    requires forall j | 0 <= j < |db.allocations| ::
               next.allocations[j].cycle == db.allocations[j].cycle &&
               next.allocations[j].profile == db.allocations[j].profile
    requires CapacitySound(next) && ProfilesFit(next)
    ensures Sound(next)
  {
    SameRowsKeepSound(db, next);
  }

  /** Rewriting profiles and routes, without renaming, touches no sum. */
  lemma ProfilesKeepSound(db: Db, next: Db)
    requires Sound(db) && next == db.(profiles := next.profiles, routes := next.routes, operations := next.operations)
    requires |next.profiles| == |db.profiles|
    requires forall p | 0 <= p < |db.profiles| ::
               next.profiles[p].provider == db.profiles[p].provider && next.profiles[p].name == db.profiles[p].name
    ensures Sound(next) && Evolves(db, next)
  {
    UnchangedEvolves(db);
    SameRowsKeepSound(db, next);
    RowsKeepFit(db, next);
  }

  // ---- every run -----------------------------------------------------------

  predicate FlagEvent(e: LedgerEvent) {
    e.ReportTx? || e.ActivateTx? || e.RevokeTx? || e.ClearTx? || e.PilotTx? || e.EndTx?
  }

  lemma FlagEventKeepsSound(db: Db, e: LedgerEvent)
    requires Sound(db) && FlagEvent(e)
    ensures Sound(Apply(db, e)) && Evolves(db, Apply(db, e))
  {
    var next := Apply(db, e);
    if e.RevokeTx? {
      FlagsKeepSound(db, next);
    } else {
      CycleFlags(db, e);
      FlagsKeepSound(db, next);
    }
  }

  lemma CycleFlags(db: Db, e: LedgerEvent)
    requires FlagEvent(e) && !e.RevokeTx?
    ensures var next := Apply(db, e);
            next == db.(cycles := next.cycles) && |next.cycles| == |db.cycles| &&
            forall c | 0 <= c < |db.cycles| ::
              CycleStep(db.cycles[c], next.cycles[c]) && next.cycles[c].application == db.cycles[c].application &&
              (next.cycles[c].lifecycle == ActiveCycle ==> db.cycles[c].lifecycle == ActiveCycle) &&
              ((Exhausted(db.cycles[c]) ==> db.cycles[c].killSwitch) ==>
                 Exhausted(next.cycles[c]) ==> next.cycles[c].killSwitch)
  {
  }

  predicate SettlementEvent(e: LedgerEvent) {
    e.ReserveTx? || e.CloseTx? || e.StaleTx?
  }

  lemma SettlementEventKeepsSound(db: Db, e: LedgerEvent)
    requires Sound(db) && SettlementEvent(e)
    ensures Sound(Apply(db, e)) && Evolves(db, Apply(db, e))
  {
    if e.ReserveTx? {
      assert Apply(db, e) == Reserve(db, e.clock, e.request).0;
      ReserveKeepsSound(db, e.clock, e.request);
    } else if e.CloseTx? {
      assert Apply(db, e) == CloseReservation(db, e.id, e.used, e.requests);
      CloseKeepsSound(db, e.id, e.used, e.requests);
    } else {
      assert Apply(db, e) == CloseStale(db, e.candidates, e.confirmed);
      StaleKeepsSound(db, e.candidates, e.confirmed);
    }
  }

  predicate AttemptEvent(e: LedgerEvent) {
    e.AuthorizeTx? || e.BookTx? || e.ReleaseTx?
  }

  lemma AttemptEventKeepsSound(db: Db, e: LedgerEvent)
    requires Sound(db) && AttemptEvent(e)
    ensures Sound(Apply(db, e)) && Evolves(db, Apply(db, e))
  {
    if e.AuthorizeTx? {
      assert Apply(db, e) == Authorize(db, e.now, e.id, e.estimate, e.maximum).0;
      AuthorizeKeepsSound(db, e.now, e.id, e.estimate, e.maximum);
    } else if e.BookTx? {
      assert Apply(db, e) == ReconcileAttempt(db, e.id, e.actual, e.requestCount).0;
      BookKeepsSound(db, e.id, e.actual, e.requestCount);
    } else {
      assert Apply(db, e) == ReleaseAttempt(db, e.id).0;
      ReleaseKeepsSound(db, e.id);
    }
  }

  predicate CycleEvent(e: LedgerEvent) {
    e.ProposeTx? || e.OpenTx? || e.LegacyOpenTx?
  }

  lemma CycleEventKeepsSound(db: Db, e: LedgerEvent)
    requires Sound(db) && CycleEvent(e)
    ensures Sound(Apply(db, e)) && Evolves(db, Apply(db, e))
  {
    if e.ProposeTx? {
      assert Apply(db, e) == ProposeCycle(db, e.provider, e.start, e.end, e.purchased);
      ProposeKeepsSound(db, e.provider, e.start, e.end, e.purchased);
    } else if e.OpenTx? {
      assert Apply(db, e) == OpenCycle(db, e.c, e.provider, e.confirmedValues, e.now);
      OpenKeepsSound(db, e.c, e.provider, e.confirmedValues, e.now);
    } else {
      assert Apply(db, e) == LegacyOpenCycle(db, e.start, e.end, e.reported, e.now);
      LegacyOpenKeepsSound(db, e.start, e.end, e.reported, e.now);
    }
  }

  predicate WriteEvent(e: LedgerEvent) {
    e.ForeignTx? || e.SetRouteTx? || e.AddRouteTx?
  }

  /** Writes of profiles and routes rename nothing. */
  lemma WriteFrames(db: Db, e: LedgerEvent)
    requires WriteEvent(e)
    ensures var next := Apply(db, e);
            next == db.(profiles := next.profiles, routes := next.routes) && |next.profiles| == |db.profiles| &&
            forall p | 0 <= p < |db.profiles| ::
              next.profiles[p].provider == db.profiles[p].provider && next.profiles[p].name == db.profiles[p].name
  {
  }

  lemma WriteEventKeepsSound(db: Db, e: LedgerEvent)
    requires Sound(db) && WriteEvent(e)
    ensures Sound(Apply(db, e)) && Evolves(db, Apply(db, e))
  {
    WriteFrames(db, e);
    ProfilesKeepSound(db, Apply(db, e));
  }

  predicate ProfileEvent(e: LedgerEvent) {
    e.CreateProfileTx? || e.AllocationTx?
  }

  lemma CreateEventKeepsSound(db: Db, e: LedgerEvent)
    requires Sound(db) && e.CreateProfileTx?
    ensures Sound(Apply(db, e)) && Evolves(db, Apply(db, e))
  {
    if e.provider == WEBSHARE {
      UnchangedEvolves(db);
    } else {
      assert Apply(db, e) == CreateProfile(db, e.provider, e.name, e.display, e.bytes).0;
      CreateProfileKeepsSound(db, e.provider, e.name, e.display, e.bytes);
    }
  }

  lemma ProfileEventKeepsSound(db: Db, e: LedgerEvent)
    requires Sound(db) && ProfileEvent(e)
    ensures Sound(Apply(db, e)) && Evolves(db, Apply(db, e))
  {
    if e.CreateProfileTx? {
      CreateEventKeepsSound(db, e);
    } else {
      assert Apply(db, e) == ChangeAllocation(db, e.p, e.bytes, ReadAllocation(db, e.p));
      AllocationKeepsSound(db, e.p, e.bytes);
    }
  }

  lemma ApplyKeepsSound(db: Db, e: LedgerEvent)
    requires Sound(db)
    ensures Sound(Apply(db, e)) && Evolves(db, Apply(db, e))
  {
    if SettlementEvent(e) {
      SettlementEventKeepsSound(db, e);
    } else if AttemptEvent(e) {
      AttemptEventKeepsSound(db, e);
    } else if CycleEvent(e) {
      CycleEventKeepsSound(db, e);
    } else if FlagEvent(e) {
      FlagEventKeepsSound(db, e);
    } else if ProfileEvent(e) {
      ProfileEventKeepsSound(db, e);
    } else {
      WriteEventKeepsSound(db, e);
    }
  }

  lemma {:induction false} RunKeepsSound(db: Db, events: seq<LedgerEvent>)
    requires Sound(db)
    ensures Sound(Run(db, events)) && Evolves(db, Run(db, events))
  {
    if events == [] {
      UnchangedEvolves(db);
    } else {
      var before := Run(db, events[..|events| - 1]);
      RunKeepsSound(db, events[..|events| - 1]);
      ApplyKeepsSound(before, events[|events| - 1]);
      EvolvesTransitive(db, before, Run(db, events));
    }
  }
}
