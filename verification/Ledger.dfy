/** Each transaction of the paid-traffic ledger as a function on the tables.

    A transaction that raises rolls back, so it returns the tables unchanged
    beside its error. Times are microseconds; `Clock` separates the worker's
    clock from the database's, which the admission check reads both of. */
module Ledger {
  import opened Tables
  import opened Rows

  const DAY: int := 86_400_000_000
  const CLEAR_WINDOW: int := 20 * 60 * 1_000_000
  const DEFAULT_OPERATIONAL: nat := 2_400_000_000
  const DEFAULT_DAILY: nat := 80_000_000
  const DEFAULT_PILOT: nat := 300_000_000

  datatype Clock = Clock(app: int, db: int)

  datatype Denial =
    | ConsumerNotUnique
    | NonPositiveBytes
    | InvalidProvider
    | MissingIdentity
    | MultipleCycles
    | NoCycle
    | CycleStartMismatch
    | CycleEndMismatch
    | CycleNotCurrent
    | CycleUnsafe
    | IdentityNotActive
    | AllocationExceeded
    | CeilingExceeded
    | DailyExceeded
    | PilotInactive
    | PilotExceeded
    | ConsumerAlreadyReserved
    | NoBillingCycle
    | ProfileUnauthorized
    | RouteUnauthorized
    | ReservationNotActive
    | ReservationRevoked
    | UnknownAttempt
    | AttemptReleased
    | AttemptDiffers
    | AttemptDispatched
    | InvalidArgument

  // ---- providers and cycles ---------------------------------------------

  predicate LowerAlpha(ch: char) {
    'a' <= ch <= 'z'
  }

  predicate ProviderTail(ch: char) {
    LowerAlpha(ch) || '0' <= ch <= '9' || ch == '_' || ch == '-'
  }

  predicate ValidProvider(provider: string) {
    1 <= |provider| <= 64 && LowerAlpha(provider[0]) &&
    forall i | 1 <= i < |provider| :: ProviderTail(provider[i])
  }

  predicate CoversNow(k: Cycle, provider: string, now: int) {
    k.provider == provider && k.lifecycle == ActiveCycle && k.start <= now < k.end
  }

  /** The positions at or after `from` of the active cycles that cover `now`. */
  function CoveringCycles(cycles: seq<Cycle>, provider: string, now: int, from: nat := 0): (ids: seq<nat>)
    requires from <= |cycles|
    ensures forall k | k in ids :: from <= k < |cycles| && CoversNow(cycles[k], provider, now)
    ensures forall k | from <= k < |cycles| && CoversNow(cycles[k], provider, now) :: k in ids
    decreases |cycles| - from
  {
    if from == |cycles| then []
    else
      var rest := CoveringCycles(cycles, provider, now, from + 1);
      if CoversNow(cycles[from], provider, now) then [from] + rest else rest
  }

  function Accounted(k: Cycle): nat {
    Max(k.reported, k.application)
  }

  predicate TrafficSafe(k: Cycle) {
    !k.killSwitch && k.reconciliationOk && k.reconciledAt.Some?
  }

  /** `max(1, ceil((end - now) / one day))` */
  function RemainingDays(end: int, now: int): (days: int)
    ensures days >= 1
  {
    if end <= now then 1 else Max(1, (end - now + DAY - 1) / DAY)
  }

  function DailyLimit(k: Cycle, active: int, days: int): int
    requires days >= 1
  {
    Min(k.daily, Max(0, (k.operational - Accounted(k) - active) / days))
  }

  function FindAllocation(allocations: seq<Allocation>, c: nat, p: nat): (found: Option<nat>)
    ensures found.Some? ==> found.value < |allocations| &&
                            allocations[found.value].cycle == c && allocations[found.value].profile == p
    ensures found.None? ==> forall a | a in allocations :: !(a.cycle == c && a.profile == p)
  {
    if allocations == [] then None
    else
      var last := |allocations| - 1;
      if allocations[last].cycle == c && allocations[last].profile == p then Some(last)
      else FindAllocation(allocations[..last], c, p)
  }

  // ---- reserve -----------------------------------------------------------

  datatype ReserveRequest = ReserveRequest(
    job: Option<nat>,
    probe: Option<nat>,
    provider: string,
    profileName: string,
    profile: Option<nat>,
    route: Option<nat>,
    cycleStart: Option<int>,
    cycleEnd: Option<int>,
    bytes: int,
    pilot: bool,
    generation: nat)

  predicate IdentityActive(db: Db, q: ReserveRequest, p: nat, route: nat) {
    p < |db.profiles| && route < |db.routes| &&
    db.profiles[p].provider == q.provider && db.profiles[p].name == q.profileName &&
    db.profiles[p].generation == q.generation &&
    db.profiles[p].enabled && db.profiles[p].lifecycle == Enabled &&
    db.routes[route].profile == p && db.routes[route].enabled && !db.routes[route].retired
  }

  predicate ConsumerTaken(db: Db, q: ReserveRequest) {
    exists i | 0 <= i < |db.reservations| ::
      (q.job.Some? && db.reservations[i].job == q.job && Unsettled(db.reservations[i])) ||
      (q.probe.Some? && db.reservations[i].probe == q.probe)
  }

  function BudgetDenial(db: Db, clock: Clock, q: ReserveRequest, c: nat, p: nat): Option<Denial>
    requires c < |db.cycles|
  {
    var k := db.cycles[c];
    var allocation := FindAllocation(db.allocations, c, p);
    var active := Sum(db.reservations, ActiveBytes(c));
    var daily := Sum(db.reservations, DayBytes(c, clock.db - clock.db % DAY));
    if allocation.None? ||
       Sum(db.reservations, ProfileActiveBytes(c, p)) + q.bytes > db.allocations[allocation.value].bytes
    then Some(AllocationExceeded)
    else if Accounted(k) + active + q.bytes > k.operational then Some(CeilingExceeded)
    else if daily + active + q.bytes > DailyLimit(k, active, RemainingDays(k.end, clock.app))
    then Some(DailyExceeded)
    else if q.pilot && !k.pilotActive then Some(PilotInactive)
    else if q.pilot && Sum(db.reservations, PilotBytes(c)) + active + q.bytes > k.pilotBytes
    then Some(PilotExceeded)
    else None
  }

  function CycleDenial(db: Db, clock: Clock, q: ReserveRequest, c: nat, p: nat, route: nat): Option<Denial>
    requires c < |db.cycles|
  {
    var k := db.cycles[c];
    if q.cycleStart.Some? && q.cycleStart.value != k.start then Some(CycleStartMismatch)
    else if q.cycleEnd.Some? && q.cycleEnd.value != k.end then Some(CycleEndMismatch)
    else if !(k.start <= clock.app < k.end) then Some(CycleNotCurrent)
    else if !TrafficSafe(k) then Some(CycleUnsafe)
    else if !IdentityActive(db, q, p, route) then Some(IdentityNotActive)
    else BudgetDenial(db, clock, q, c, p)
  }

  /** The first guard of `reserve` that refuses, or the cycle it may charge. */
  function Admission(db: Db, clock: Clock, q: ReserveRequest): (verdict: Result<nat, Denial>)
    ensures verdict.Ok? ==> verdict.value < |db.cycles| && q.bytes > 0 && q.profile.Some? && q.route.Some? &&
                            CoversNow(db.cycles[verdict.value], q.provider, clock.db) &&
                            CycleDenial(db, clock, q, verdict.value, q.profile.value, q.route.value) == None
  {
    if q.job.None? == q.probe.None? then Err(ConsumerNotUnique)
    else if q.bytes <= 0 then Err(NonPositiveBytes)
    else if !ValidProvider(q.provider) then Err(InvalidProvider)
    else if q.profile.None? || q.route.None? then Err(MissingIdentity)
    else
      var covering := CoveringCycles(db.cycles, q.provider, clock.db);
      if |covering| > 1 then Err(MultipleCycles)
      else if |covering| == 0 then Err(NoCycle)
      else
        assert covering[0] in covering;
        var denial := CycleDenial(db, clock, q, covering[0], q.profile.value, q.route.value);
        if denial.Some? then Err(denial.value)
        else if ConsumerTaken(db, q) then Err(ConsumerAlreadyReserved)
        else Ok(covering[0])
  }

  function NewReservation(q: ReserveRequest, c: nat, now: int): Reservation
    requires q.bytes > 0 && q.profile.Some? && q.route.Some?
  {
    Reservation(q.job, q.probe, q.profile.value, q.route.value, c, q.bytes, 0, 0, q.pilot, q.generation,
                Active, false, now, 0)
  }

  function Reserve(db: Db, clock: Clock, q: ReserveRequest): (Db, Result<nat, Denial>) {
    var verdict := Admission(db, clock, q);
    if verdict.Err? then (db, verdict)
    else (db.(reservations := db.reservations + [NewReservation(q, verdict.value, clock.db)]),
          Ok(|db.reservations|))
  }

  // ---- settlement --------------------------------------------------------

  /** The cycle update that follows every settlement. */
  function Settle(k: Cycle, settled: int): Cycle {
    k.(application := Max(k.application, settled),
       killSwitch := k.killSwitch || settled >= k.operational)
  }

  function SettleCycle(db: Db, c: nat): Db {
    if c < |db.cycles|
    then db.(cycles := db.cycles[c := Settle(db.cycles[c], Sum(db.reservations, SettledBytes(c)))])
    else db
  }

  function Raised(r: Reservation, used: nat, requests: nat): Reservation {
    r.(estimated := Max(r.estimated, used), requests := Max(r.requests, requests))
  }

  function CloseRow(r: Reservation, used: nat, requests: nat): Reservation {
    Raised(r, used, requests).(state := Closed, atSettlement := Max(r.estimated, used))
  }

  /** Settling an unsettled reservation, or booking late usage on a cancelled
      one; any other call changes nothing. */
  function CloseReservation(db: Db, id: nat, used: nat, requests: nat): Db {
    if id >= |db.reservations| then db
    else
      var r := db.reservations[id];
      if Unsettled(r)
      then SettleCycle(db.(reservations := db.reservations[id := CloseRow(r, used, requests)]), r.cycle)
      else if r.state == Cancelled && (r.estimated < used || r.requests < requests)
      then SettleCycle(db.(reservations := db.reservations[id := Raised(r, used, requests)]), r.cycle)
      else db
  }

  function CancelRow(r: Reservation): Reservation {
    r.(state := Cancelled, atSettlement := r.estimated)
  }

  /** The rows that both reads of the cleanup find abandoned and unsettled.
      Which jobs and probes count as abandoned is decided by their own tables. */
  predicate StaleRow(db: Db, candidates: set<nat>, confirmed: set<nat>, i: nat)
    requires i < |db.reservations|
  {
    i in candidates && i in confirmed && Unsettled(db.reservations[i])
  }

  function CancelStale(db: Db, candidates: set<nat>, confirmed: set<nat>): Db {
    db.(reservations := seq(|db.reservations|, i requires 0 <= i < |db.reservations| =>
          if StaleRow(db, candidates, confirmed, i) then CancelRow(db.reservations[i])
          else db.reservations[i]))
  }

  predicate StaleCycle(db: Db, candidates: set<nat>, confirmed: set<nat>, c: nat) {
    exists i | 0 <= i < |db.reservations| ::
      StaleRow(db, candidates, confirmed, i) && db.reservations[i].cycle == c
  }

  function CloseStale(db: Db, candidates: set<nat>, confirmed: set<nat>): Db {
    var cancelled := CancelStale(db, candidates, confirmed);
    cancelled.(cycles := seq(|db.cycles|, c requires 0 <= c < |db.cycles| =>
                 if StaleCycle(db, candidates, confirmed, c)
                 then Settle(db.cycles[c], Sum(cancelled.reservations, SettledBytes(c)))
                 else db.cycles[c]))
  }

  // ---- attempts ----------------------------------------------------------

  datatype Authorization = Granted(id: nat) | NoCapacity | Refused(denial: Denial)

  function AttemptDenial(db: Db, now: int, id: nat): Option<Denial> {
    if id >= |db.reservations| || db.reservations[id].cycle >= |db.cycles| then Some(NoBillingCycle)
    else
      var r := db.reservations[id];
      var k := db.cycles[r.cycle];
      if k.lifecycle != ActiveCycle || !(k.start <= now < k.end) || !TrafficSafe(k) then Some(CycleUnsafe)
      else if r.profile >= |db.profiles| then Some(ProfileUnauthorized)
      else
        var p := db.profiles[r.profile];
        if !p.enabled || p.lifecycle != Enabled || p.generation != r.generation then Some(ProfileUnauthorized)
        else if r.route >= |db.routes| || db.routes[r.route].profile != r.profile ||
                !db.routes[r.route].enabled || db.routes[r.route].retired
        then Some(RouteUnauthorized)
        else if !Unsettled(r) then Some(ReservationNotActive)
        else if r.revocationRequested || r.state == RevocationRequested then Some(ReservationRevoked)
        else None
  }

  function Authorize(db: Db, now: int, id: nat, estimate: int, maximum: Option<int>): (Db, Authorization) {
    if estimate < 0 || (maximum.Some? && maximum.value < 1) then (db, Refused(InvalidArgument))
    else
      var denial := AttemptDenial(db, now, id);
      if denial.Some? then (db, Refused(denial.value))
      else
        var r := db.reservations[id];
        if r.estimated + Sum(db.attempts, PendingBytes(id)) + estimate > r.reserved ||
           (maximum.Some? && r.requests + Sum(db.attempts, PendingRequests(id)) >= maximum.value)
        then (db, NoCapacity)
        else (db.(attempts := db.attempts + [Attempt(id, estimate, Authorized)]), Granted(|db.attempts|))
  }

  datatype Usage = Usage(estimated: nat, requests: nat, revoked: bool, exhausted: bool)

  function UsageOf(r: Reservation): Usage {
    Usage(r.estimated, r.requests, r.revocationRequested || r.state == RevocationRequested,
          r.estimated > r.reserved)
  }

  function Booked(r: Reservation, actual: nat, requests: nat): Reservation {
    r.(estimated := r.estimated + actual, requests := r.requests + requests)
  }

  function ReconcileAttempt(db: Db, id: nat, actual: int, requests: int): (Db, Result<Usage, Denial>) {
    if actual < 0 || requests < 0 then (db, Err(InvalidArgument))
    else if id >= |db.attempts| || db.attempts[id].reservation >= |db.reservations| then (db, Err(UnknownAttempt))
    else
      var a := db.attempts[id];
      var r := db.reservations[a.reservation];
      match a.state
      case Released => (db, Err(AttemptReleased))
      case Reconciled(bytes, count) =>
        if bytes != actual || count != requests then (db, Err(AttemptDiffers)) else (db, Ok(UsageOf(r)))
      case Authorized =>
        (db.(attempts := db.attempts[id := a.(state := Reconciled(actual, requests))],
             reservations := db.reservations[a.reservation := Booked(r, actual, requests)]),
         Ok(UsageOf(Booked(r, actual, requests))))
  }

  function ReleaseAttempt(db: Db, id: nat): (Db, Result<(), Denial>) {
    if id >= |db.attempts| then (db, Err(UnknownAttempt))
    else
      var a := db.attempts[id];
      match a.state
      case Authorized => (db.(attempts := db.attempts[id := a.(state := Released)]), Ok(()))
      case Released => (db, Ok(()))
      case Reconciled(_, _) => (db, Err(AttemptDispatched))
  }

  // ---- provider reconciliation and the kill switch -----------------------

  function Reported(k: Cycle, reported: int, ok: bool, now: int): Cycle {
    var high := Max(k.reported, Max(0, reported));
    k.(reported := high,
       reconciledAt := if ok then Some(now) else k.reconciledAt,
       reconciliationOk := ok,
       killSwitch := k.killSwitch || high >= k.operational)
  }

  function MapCycles(db: Db, f: Cycle -> Cycle): Db {
    db.(cycles := seq(|db.cycles|, c requires 0 <= c < |db.cycles| => f(db.cycles[c])))
  }

  function ReconcileProvider(db: Db, provider: string, start: int, reported: int, ok: bool, now: int): Db {
    MapCycles(db, (k: Cycle) =>
      if k.provider == provider && k.start == start then Reported(k, reported, ok, now) else k)
  }

  function ActivateKillSwitch(db: Db, provider: string): Db {
    MapCycles(db, (k: Cycle) =>
      if k.provider == provider && k.lifecycle == ActiveCycle then k.(killSwitch := true) else k)
  }

  function RevokeRow(r: Reservation): Reservation {
    if r.state == Active then r.(state := RevocationRequested, revocationRequested := true) else r
  }

  predicate OfProvider(db: Db, r: Reservation, provider: string) {
    r.cycle < |db.cycles| && db.cycles[r.cycle].provider == provider
  }

  function RevokeAll(db: Db, provider: string): Db {
    ActivateKillSwitch(
      db.(reservations := seq(|db.reservations|, i requires 0 <= i < |db.reservations| =>
            if OfProvider(db, db.reservations[i], provider) then RevokeRow(db.reservations[i])
            else db.reservations[i])),
      provider)
  }

  predicate Clearable(db: Db, k: Cycle, provider: string, now: int) {
    k.provider == provider && k.lifecycle == ActiveCycle && k.reconciliationOk &&
    k.reconciledAt.Some? && k.reconciledAt.value > now - CLEAR_WINDOW &&
    Accounted(k) < k.operational &&
    exists p | p in db.profiles :: p.provider == provider && p.enabled
  }

  function ClearKillSwitch(db: Db, provider: string, now: int): Db {
    MapCycles(db, (k: Cycle) => if Clearable(db, k, provider, now) then k.(killSwitch := false) else k)
  }

  function SwitchPilot(db: Db, provider: string, on: bool, now: int): Db {
    MapCycles(db, (k: Cycle) =>
      if k.provider == provider && k.lifecycle == ActiveCycle &&
         (on ==> k.reconciliationOk && k.reconciledAt.Some? && k.reconciledAt.value > now - CLEAR_WINDOW)
      then k.(pilotActive := on) else k)
  }

  // ---- cycle lifecycle ---------------------------------------------------

  predicate KeyTaken(db: Db, provider: string, start: int) {
    exists k | k in db.cycles :: k.provider == provider && k.start == start
  }

  predicate ActiveExists(db: Db, provider: string) {
    exists k | k in db.cycles :: k.provider == provider && k.lifecycle == ActiveCycle
  }

  function ProposeCycle(db: Db, provider: string, start: int, end: int, purchased: nat): Db {
    if KeyTaken(db, provider, start) || purchased == 0 || end <= start then db
    else
      db.(cycles := db.cycles +
            [Cycle(provider, start, end, Min(purchased, DEFAULT_OPERATIONAL), DEFAULT_DAILY, DEFAULT_PILOT, 0,
                   false, ProposedCycle, true, false, None, 0, 0)])
  }

  function CloseExpired(db: Db, provider: string, now: int): Db {
    MapCycles(db, (k: Cycle) =>
      if k.provider == provider && k.lifecycle == ActiveCycle && k.end <= now
      then k.(lifecycle := ClosedCycle) else k)
  }

  /** Opening violates the one-active-cycle index, and rolls back, when an
      unexpired active cycle remains. `confirmed` is the operator's match. */
  function OpenCycle(db: Db, c: nat, provider: string, confirmed: bool, now: int): Db {
    if c >= |db.cycles| || db.cycles[c].provider != provider || db.cycles[c].lifecycle != ProposedCycle || !confirmed
    then db
    else
      var swept := CloseExpired(db, provider, now);
      if ActiveExists(swept, provider) then db
      else swept.(cycles := swept.cycles[c := swept.cycles[c].(lifecycle := ActiveCycle, killSwitch := true,
                                                               reconciliationOk := false)])
  }

  function EndCycle(db: Db, c: nat, provider: string, now: int): Db {
    if c < |db.cycles| && db.cycles[c].provider == provider && db.cycles[c].lifecycle == ActiveCycle &&
       db.cycles[c].end <= now &&
       (forall r | r in db.reservations :: r.cycle == c ==> !Unsettled(r))
    then db.(cycles := db.cycles[c := db.cycles[c].(lifecycle := ClosedCycle, killSwitch := true)])
    else db
  }

  const DECODO: string := "decodo"

  predicate Overlaps(k: Cycle, start: int, end: int) {
    k.provider == DECODO && k.start != start && k.start < end && start < k.end
  }

  /** The command-line `open_cycle`, which upserts the Decodo cycle. */
  function LegacyOpenCycle(db: Db, start: int, end: int, reported: int, now: int): Db {
    if end <= start || (exists k | k in db.cycles :: Overlaps(k, start, end)) then db
    else
      var swept := CloseExpired(db, DECODO, now);
      var seen := Max(0, reported);
      if KeyTaken(db, DECODO, start) then
        MapCycles(swept, (k: Cycle) =>
          if k.provider == DECODO && k.start == start
          then k.(reported := Max(k.reported, seen), reconciledAt := Some(now), reconciliationOk := true,
                  killSwitch := k.killSwitch || seen >= k.operational)
          else k)
      else if ActiveExists(swept, DECODO) then db
      else
        swept.(cycles := swept.cycles +
                 [Cycle(DECODO, start, end, DEFAULT_OPERATIONAL, DEFAULT_DAILY, DEFAULT_PILOT, 0, false,
                        ActiveCycle, seen >= DEFAULT_OPERATIONAL, true, Some(now), seen, 0)])
  }

  // ---- profiles, allocations and routes ----------------------------------

  predicate NameTaken(db: Db, name: string) {
    exists p | p in db.profiles :: p.name == name
  }

  function FirstActive(cycles: seq<Cycle>, provider: string): (found: Option<nat>)
    ensures found.Some? ==> found.value < |cycles| && cycles[found.value].provider == provider &&
                            cycles[found.value].lifecycle == ActiveCycle
  {
    if cycles == [] then None
    else
      var last := |cycles| - 1;
      if cycles[last].provider == provider && cycles[last].lifecycle == ActiveCycle then Some(last)
      else FirstActive(cycles[..last], provider)
  }

  /** `create_profile` up to its provider call. */
  function CreateProfile(db: Db, provider: string, name: string, display: string, bytes: int): (Db, Option<nat>) {
    var active := FirstActive(db.cycles, provider);
    if bytes <= 0 || active.None? || NameTaken(db, name) then (db, None)
    else
      var k := db.cycles[active.value];
      if Sum(db.allocations, AllocatedBytes(active.value)) + bytes + k.unmanaged > k.operational then (db, None)
      else (db.(profiles := db.profiles + [Profile(provider, name, display, false, Pending, false, false, 0, 0)],
                allocations := db.allocations + [Allocation(active.value, |db.profiles|, bytes)]),
            Some(|db.profiles|))
  }

  predicate ProfileBusy(db: Db, p: nat) {
    exists r | r in db.reservations :: r.profile == p && Unsettled(r)
  }

  /** What `profile_action` read before the transaction that changes an
      allocation: the profile's row in the active cycle with its bytes, the
      provider limit, and whether reservations were unsettled. */
  datatype AllocationRead = AllocationRead(row: Option<nat>, bytes: nat, limit: nat, busy: bool)

  function ReadAllocation(db: Db, p: nat): AllocationRead {
    if p >= |db.profiles| || !db.profiles[p].resource then AllocationRead(None, 0, 0, false)
    else
      var active := FirstActive(db.cycles, db.profiles[p].provider);
      var row := if active.Some? then FindAllocation(db.allocations, active.value, p) else None;
      AllocationRead(row, if row.Some? then db.allocations[row.value].bytes else 0, db.profiles[p].limit,
                     ProfileBusy(db, p))
  }

  /** Refused on what was read: below the limit, or lowered while busy. */
  predicate AllocationRefused(bytes: int, before: AllocationRead) {
    bytes < 0 || bytes < before.limit || (before.busy && bytes < before.bytes)
  }

  /** The transaction itself. Its capacity check reads the cycle that is active
      now; its write goes to the row read before. */
  function ChangeAllocation(db: Db, p: nat, bytes: int, before: AllocationRead): Db {
    if AllocationRefused(bytes, before) || p >= |db.profiles| || before.row.None? ||
       before.row.value >= |db.allocations|
    then db
    else
      var active := FirstActive(db.cycles, db.profiles[p].provider);
      if active.None? then db
      else
        var k := db.cycles[active.value];
        if Sum(db.allocations, OtherAllocatedBytes(active.value, p)) + k.unmanaged + bytes > k.operational then db
        else db.(allocations := db.allocations[before.row.value := db.allocations[before.row.value].(bytes := bytes)])
  }

  /** Every other writer of a profile: sub-user provisioning, rotation and
      draining. It may do anything to a row except rename it or move it to
      another provider, and never reaches the `shielded` provider's profiles. */
  function ForeignProfile(db: Db, p: nat, row: Profile, shielded: string): Db {
    if p < |db.profiles| && db.profiles[p].provider != shielded &&
       row.provider == db.profiles[p].provider && row.name == db.profiles[p].name
    then db.(profiles := db.profiles[p := row])
    else db
  }

  function SetRoute(db: Db, route: nat, enabled: bool, retired: bool): Db {
    if route < |db.routes|
    then db.(routes := db.routes[route := db.routes[route].(enabled := enabled, retired := retired)])
    else db
  }

  function AddRoute(db: Db, p: nat, enabled: bool): Db {
    if p < |db.profiles| && db.profiles[p].enabled && db.profiles[p].lifecycle == Enabled
    then db.(routes := db.routes + [Route(p, enabled, false)])
    else db
  }
}
