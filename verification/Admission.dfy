/** What admission to paid traffic amounts to, and what it keeps unique. */
module Admission {
  import opened Tables
  import opened Rows
  import opened Ledger
  import opened LedgerProofs
  import opened LedgerTheorems
  import opened Pacing

  // ---- what counts ------------------------------------------------------------------

  /** The envelopes of a cycle that have not settled. */
  function Envelopes(c: nat): Reservation -> int {
    (r: Reservation) => if r.cycle == c && r.state in {Active, RevocationRequested} then r.reserved else 0
  }

  function ProfileEnvelopes(c: nat, p: nat): Reservation -> int {
    (r: Reservation) =>
      if r.cycle == c && r.profile == p && r.state in {Active, RevocationRequested} then r.reserved else 0
  }

  /** The usage of the reservations made since then, settled or not. */
  function UsedSince(c: nat, since: int): Reservation -> int {
    (r: Reservation) => if r.cycle == c && since <= r.createdAt then r.estimated else 0
  }

  function PilotUse(c: nat): Reservation -> int {
    (r: Reservation) => if r.cycle == c && r.pilot then r.estimated else 0
  }

  lemma SameSum(rows: seq<Reservation>, v: Reservation -> int, w: Reservation -> int)
    requires forall r: Reservation :: v(r) == w(r)
    ensures Sum(rows, v) == Sum(rows, w)
  {
    SumLe(rows, rows, v, w);
    SumLe(rows, rows, w, v);
  }

  lemma CountsAgree(rows: seq<Reservation>, c: nat, p: nat, since: int)
    ensures Sum(rows, ActiveBytes(c)) == Sum(rows, Envelopes(c))
    ensures Sum(rows, ProfileActiveBytes(c, p)) == Sum(rows, ProfileEnvelopes(c, p))
    ensures Sum(rows, DayBytes(c, since)) == Sum(rows, UsedSince(c, since))
    ensures Sum(rows, PilotBytes(c)) == Sum(rows, PilotUse(c))
  {
    SameSum(rows, ActiveBytes(c), Envelopes(c));
    SameSum(rows, ProfileActiveBytes(c, p), ProfileEnvelopes(c, p));
    SameSum(rows, DayBytes(c, since), UsedSince(c, since));
    SameSum(rows, PilotBytes(c), PilotUse(c));
  }

  // ---- admissible requests ------------------------------------------------------------

  /** The start of the calendar day of the database clock. */
  function Midnight(now: int): int {
    now - now % 86_400_000_000
  }

  /** Today's usage and every open envelope, the request included. */
  function Today(db: Db, clock: Clock, q: ReserveRequest, c: nat): int {
    Sum(db.reservations, UsedSince(c, Midnight(clock.db))) + Sum(db.reservations, Envelopes(c)) + q.bytes
  }

  /** What the ceiling leaves, by whichever count is higher, beside the open
      envelopes. */
  function Room(db: Db, c: nat): int
    requires c < |db.cycles|
  {
    var k := db.cycles[c];
    k.operational - (if k.reported > k.application then k.reported else k.application) - Sum(db.reservations, Envelopes(c))
  }

  /** The request fits everywhere: its profile's allocation, the cycle, the daily
      pace over the remaining days, and the pilot if it is one. */
  predicate FitsBudget(db: Db, clock: Clock, q: ReserveRequest, c: nat, p: nat)
    requires c < |db.cycles|
  {
    var k := db.cycles[c];
    (exists a | a in db.allocations ::
       a.cycle == c && a.profile == p && Sum(db.reservations, ProfileEnvelopes(c, p)) + q.bytes <= a.bytes) &&
    q.bytes <= Room(db, c) &&
    Today(db, clock, q, c) <= k.daily &&
    Today(db, clock, q, c) * RemainingDays(k.end, clock.app) <= Room(db, c) &&
    (q.pilot ==>
       k.pilotActive &&
       Sum(db.reservations, PilotUse(c)) + Sum(db.reservations, Envelopes(c)) + q.bytes <= k.pilotBytes)
  }

  /** The remaining days are the fewest, and at least one, that reach the end. */
  lemma RemainingDaysReachEnd(end: int, now: int)
    ensures var d := RemainingDays(end, now);
            d >= 1 && end <= now + d * 86_400_000_000 && (d > 1 ==> now + (d - 1) * 86_400_000_000 < end)
  {
    if end > now {
      DivisionBounds(end - now + DAY - 1, DAY);
    }
  }

  predicate FreeConsumer(db: Db, q: ReserveRequest) {
    forall r | r in db.reservations ::
      !(q.job.Some? && r.job == q.job && r.state in {Active, RevocationRequested}) &&
      !(q.probe.Some? && r.probe == q.probe)
  }

  /** The named profile at its generation, and a route of it, both in use. */
  predicate LiveIdentity(db: Db, q: ReserveRequest, p: nat, x: nat) {
    p < |db.profiles| && x < |db.routes| &&
    var profile, route := db.profiles[p], db.routes[x];
    profile.provider == q.provider && profile.name == q.profileName && profile.generation == q.generation &&
    profile.enabled && profile.lifecycle == Enabled && route.profile == p && route.enabled && !route.retired
  }

  /** The provider's cycle runs by both clocks and lets traffic through. */
  predicate RunsFor(k: Cycle, provider: string, clock: Clock) {
    k.provider == provider && k.lifecycle == ActiveCycle && k.start <= clock.db < k.end && k.start <= clock.app < k.end &&
    !k.killSwitch && k.reconciliationOk && k.reconciledAt.Some?
  }

  predicate Admissible(db: Db, clock: Clock, q: ReserveRequest, c: nat) {
    q.job.Some? != q.probe.Some? && q.bytes > 0 && ValidProvider(q.provider) && q.profile.Some? && q.route.Some? &&
    c < |db.cycles| && RunsFor(db.cycles[c], q.provider, clock) &&
    (q.cycleStart.Some? ==> q.cycleStart.value == db.cycles[c].start) &&
    (q.cycleEnd.Some? ==> q.cycleEnd.value == db.cycles[c].end) &&
    LiveIdentity(db, q, q.profile.value, q.route.value) &&
    FitsBudget(db, clock, q, c, q.profile.value) && FreeConsumer(db, q)
  }

  lemma TheAllocation(db: Db, c: nat, p: nat, need: int)
    requires AllocationKeys(db)
    ensures var found := FindAllocation(db.allocations, c, p);
            (found.Some? && need <= db.allocations[found.value].bytes) <==>
            exists a | a in db.allocations :: a.cycle == c && a.profile == p && need <= a.bytes
  {
    var found := FindAllocation(db.allocations, c, p);
    if found.Some? {
      assert db.allocations[found.value] in db.allocations;
      forall a | a in db.allocations && a.cycle == c && a.profile == p ensures a == db.allocations[found.value] {
        var j :| 0 <= j < |db.allocations| && db.allocations[j] == a;
      }
    }
  }

  lemma BudgetIff(db: Db, clock: Clock, q: ReserveRequest, c: nat, p: nat)
    requires AllocationKeys(db) && c < |db.cycles| && q.bytes > 0
    ensures BudgetDenial(db, clock, q, c, p).None? <==> FitsBudget(db, clock, q, c, p)
  {
    var k := db.cycles[c];
    CountsAgree(db.reservations, c, p, Midnight(clock.db));
    SumNonNegative(db.reservations, DayBytes(c, clock.db - clock.db % DAY));
    SumNonNegative(db.reservations, ActiveBytes(c));
    PaceIff(Today(db, clock, q, c), k.daily, Room(db, c), RemainingDays(k.end, clock.app));
    TheAllocation(db, c, p, Sum(db.reservations, ProfileActiveBytes(c, p)) + q.bytes);
  }

  lemma ConsumerIff(db: Db, q: ReserveRequest)
    ensures ConsumerTaken(db, q) <==> !FreeConsumer(db, q)
  {
    if ConsumerTaken(db, q) {
      var i :| 0 <= i < |db.reservations| &&
               ((q.job.Some? && db.reservations[i].job == q.job && Unsettled(db.reservations[i])) ||
                (q.probe.Some? && db.reservations[i].probe == q.probe));
      assert db.reservations[i] in db.reservations;
    }
  }

  lemma TheCycle(db: Db, clock: Clock, q: ReserveRequest, c: nat)
    requires KeysSound(db) && c < |db.cycles| && CoversNow(db.cycles[c], q.provider, clock.db)
    ensures CoveringCycles(db.cycles, q.provider, clock.db) == [c]
  {
    AtMostOneCovers(db, q.provider, clock.db, 0);
    assert c in CoveringCycles(db.cycles, q.provider, clock.db);
  }

  /** A request is admitted to a cycle exactly when it is admissible there: one
      covering cycle, live identity, and room in every budget. */
  lemma AdmittedIff(db: Db, clock: Clock, q: ReserveRequest, c: nat)
    requires KeysSound(db) && AllocationKeys(db)
    ensures Admission(db, clock, q) == Ok(c) <==> Admissible(db, clock, q, c)
  {
    ConsumerIff(db, q);
    if c < |db.cycles| && q.bytes > 0 && q.profile.Some? {
      BudgetIff(db, clock, q, c, q.profile.value);
      if CoversNow(db.cycles[c], q.provider, clock.db) {
        TheCycle(db, clock, q, c);
      }
    }
  }

  /** In every run a request is reserved exactly when some cycle admits it, and
      then one active row with its envelope is added and nothing else changes. */
  lemma ReservedIff(start: Db, events: seq<LedgerEvent>, clock: Clock, q: ReserveRequest)
    requires Sound(start)
    ensures var db := Run(start, events);
            var (next, answer) := Reserve(db, clock, q);
            (answer.Ok? <==> exists c: nat :: Admissible(db, clock, q, c)) &&
            (answer.Err? ==> next == db) &&
            (answer.Ok? ==>
               |next.reservations| == |db.reservations| + 1 && next == db.(reservations := next.reservations) &&
               next.reservations[..|db.reservations|] == db.reservations &&
               var r := next.reservations[|db.reservations|];
               Admissible(db, clock, q, r.cycle) && q.profile == Some(r.profile) && q.route == Some(r.route) &&
               r == Reservation(q.job, q.probe, r.profile, r.route, r.cycle, q.bytes, 0, 0, q.pilot, q.generation,
                                Active, false, clock.db, 0))
  {
    RunKeepsSound(start, events);
    var db := Run(start, events);
    var verdict := Admission(db, clock, q);
    if verdict.Ok? {
      AdmittedIff(db, clock, q, verdict.value);
    }
    forall c: nat | Admissible(db, clock, q, c) ensures verdict == Ok(c) {
      AdmittedIff(db, clock, q, c);
    }
  }

  // ---- one envelope per consumer ----------------------------------------------------

  predicate SameConsumer(a: Reservation, b: Reservation) {
    (a.job.Some? && a.job == b.job && Unsettled(a) && Unsettled(b)) || (a.probe.Some? && a.probe == b.probe)
  }

  predicate ConsumersUnique(rows: seq<Reservation>) {
    forall i, j | 0 <= i < j < |rows| :: !SameConsumer(rows[i], rows[j])
  }

  lemma EvolvedConsumers(a: seq<Reservation>, b: seq<Reservation>)
    requires ConsumersUnique(a) && |b| == |a| && forall i | 0 <= i < |a| :: RowStep(a[i], b[i])
    ensures ConsumersUnique(b)
  {
    forall i, j | 0 <= i < j < |b| ensures !SameConsumer(b[i], b[j]) {
      assert RowStep(a[i], b[i]) && RowStep(a[j], b[j]) && !SameConsumer(a[i], a[j]);
    }
  }

  lemma ReserveKeepsConsumers(db: Db, clock: Clock, q: ReserveRequest)
    requires ConsumersUnique(db.reservations)
    ensures ConsumersUnique(Reserve(db, clock, q).0.reservations)
  {
    ConsumerIff(db, q);
    assert forall i | 0 <= i < |db.reservations| :: db.reservations[i] in db.reservations;
  }

  lemma OthersAddNoReservation(db: Db, e: LedgerEvent)
    requires !e.ReserveTx?
    ensures |Apply(db, e).reservations| == |db.reservations|
  {
  }

  lemma ApplyKeepsConsumers(db: Db, e: LedgerEvent)
    requires Sound(db) && ConsumersUnique(db.reservations)
    ensures ConsumersUnique(Apply(db, e).reservations)
  {
    if e.ReserveTx? {
      ReserveKeepsConsumers(db, e.clock, e.request);
    } else {
      ApplyKeepsSound(db, e);
      OthersAddNoReservation(db, e);
      EvolvedConsumers(db.reservations, Apply(db, e).reservations);
    }
  }

  /** In every run a job has at most one unsettled reservation, and a probe at
      most one reservation ever. */
  lemma {:induction false} ConsumersStayUnique(start: Db, events: seq<LedgerEvent>)
    requires Sound(start) && ConsumersUnique(start.reservations)
    ensures ConsumersUnique(Run(start, events).reservations)
  {
    if events != [] {
      var before := Run(start, events[..|events| - 1]);
      ConsumersStayUnique(start, events[..|events| - 1]);
      RunKeepsSound(start, events[..|events| - 1]);
      ApplyKeepsConsumers(before, events[|events| - 1]);
    }
  }
}
