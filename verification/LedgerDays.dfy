/** Daily pacing over ledger runs: what each day's admitted traffic leaves to the
    days after it. */
module LedgerDays {
  import opened Tables
  import opened Rows
  import opened Ledger
  import opened LedgerProofs
  import opened LedgerTheorems
  import opened Pacing
  import Consumers = Admission

  /** The transactions of one calendar day of the database clock. */
  datatype Day = Day(start: int, events: seq<LedgerEvent>)

  function After(db: Db, days: seq<Day>): Db {
    if days == [] then db else Run(After(db, days[..|days| - 1]), days[|days| - 1].events)
  }

  /** No reservation of the cycle is carried over. */
  predicate Calm(db: Db, c: nat) {
    forall i | 0 <= i < |db.reservations| && db.reservations[i].cycle == c :: !Unsettled(db.reservations[i])
  }

  /** A reservation is made on the day, with at least so many days remaining. */
  predicate OnDay(e: LedgerEvent, day: int, end: int, remaining: int) {
    e.ReserveTx? ==> e.clock.db - e.clock.db % DAY == day && RemainingDays(end, e.clock.app) >= remaining
  }

  /** A day of frugal reports whose reservations are all made on it. */
  predicate DayRun(db: Db, day: Day, c: nat, remaining: int)
    requires c < |db.cycles|
  {
    FrugalRun(db, day.events) && forall e | e in day.events :: OnDay(e, day.start, db.cycles[c].end, remaining)
  }

  // ---- what a day commits ------------------------------------------------------

  lemma {:induction false} SumGrowth<T>(a: seq<T>, b: seq<T>, v: T -> int, w: T -> int, x: T -> int)
    requires |a| <= |b|
    requires forall i | 0 <= i < |a| :: w(b[i]) - v(a[i]) <= x(b[i])
    requires forall i | |a| <= i < |b| :: w(b[i]) <= x(b[i])
    ensures Sum(b, w) - Sum(a, v) <= Sum(b, x)
  {
    if |a| < |b| {
      SumGrowth(a, b[..|b| - 1], v, w, x);
    } else if a != [] {
      SumGrowth(a[..|a| - 1], b[..|b| - 1], v, w, x);
    }
  }

  /** The settled rows of the morning stay as they were, and every other row of the
      cycle was made during the day. */
  predicate MadeToday(morning: Db, now: Db, c: nat, day: int) {
    |morning.reservations| <= |now.reservations| &&
    (forall i | 0 <= i < |morning.reservations| && morning.reservations[i].cycle == c ::
       Committed(c)(now.reservations[i]) == SettledBytes(c)(morning.reservations[i])) &&
    (forall i | 0 <= i < |morning.reservations| && morning.reservations[i].cycle != c :: now.reservations[i].cycle != c) &&
    (forall i | |morning.reservations| <= i < |now.reservations| && now.reservations[i].cycle == c ::
       now.reservations[i].createdAt >= day)
  }

  /** What the cycle has committed since the morning. */
  function Spending(morning: Db, now: Db, c: nat): int {
    Sum(now.reservations, Committed(c)) - Sum(morning.reservations, SettledBytes(c))
  }

  function TodayBytes(c: nat, day: int): Reservation -> int {
    (r: Reservation) =>
      if r.cycle != c then 0
      else (if r.createdAt >= day then r.estimated else 0) + if Unsettled(r) then r.reserved else 0
  }

  lemma MorningRowIsCounted(r: Reservation, s: Reservation, c: nat, day: int)
    requires if r.cycle == c then Committed(c)(s) == SettledBytes(c)(r) else s.cycle != c
    ensures Committed(c)(s) - SettledBytes(c)(r) <= TodayBytes(c, day)(s)
  {
  }

  /** The day's usage and the active envelopes, as admission adds them up, cover
      what was committed since the morning. */
  lemma SpendingIsCounted(morning: Db, now: Db, c: nat, day: int)
    requires MadeToday(morning, now, c, day)
    ensures Spending(morning, now, c) <= Sum(now.reservations, DayBytes(c, day)) + Sum(now.reservations, ActiveBytes(c))
  {
    var a, b := morning.reservations, now.reservations;
    forall i | 0 <= i < |a| ensures Committed(c)(b[i]) - SettledBytes(c)(a[i]) <= TodayBytes(c, day)(b[i]) {
      MorningRowIsCounted(a[i], b[i], c, day);
    }
    forall i | |a| <= i < |b| ensures Committed(c)(b[i]) <= TodayBytes(c, day)(b[i]) {
    }
    SumGrowth(a, b, SettledBytes(c), Committed(c), TodayBytes(c, day));
    SumSplit(b, DayBytes(c, day), ActiveBytes(c), TodayBytes(c, day));
  }

  lemma LimitFalls(k: Cycle, l: Cycle, active: nat, days: int, more: int)
    requires CycleStep(k, l) && 1 <= days <= more
    ensures DailyLimit(l, active, more) <= DailyLimit(k, 0, days)
  {
    var room, left := k.operational - Accounted(k), l.operational - Accounted(l) - active;
    DivisionBounds(left, more);
    if left / more > 0 {
      SmallerShare(left / more, days, more);
      QuotientAtLeast(room, days, left / more);
    }
  }

  lemma SmallerShare(q: int, days: int, more: int)
    requires q >= 0 && days <= more
    ensures q * days <= q * more
  {
    ScaleLe(days, more, q);
  }

  // ---- during a day ------------------------------------------------------------

  predicate Within(morning: Db, now: Db, c: nat, day: int, remaining: int)
    requires c < |morning.cycles| && remaining >= 1
  {
    Sound(now) && Frugal(now) && Evolves(morning, now) && MadeToday(morning, now, c, day) &&
    Spending(morning, now, c) <= DailyLimit(morning.cycles[c], 0, remaining)
  }

  lemma StepCommitsNoMore(r: Reservation, s: Reservation, c: nat)
    requires RowStep(r, s) && WithinEnvelope(r) && WithinEnvelope(s)
    ensures Committed(c)(s) <= Committed(c)(r)
    ensures !Unsettled(r) ==> Committed(c)(s) == Committed(c)(r)
  {
  }

  lemma QuietStaysWithin(morning: Db, now: Db, next: Db, c: nat, day: int, remaining: int)
    requires c < |morning.cycles| && remaining >= 1 && Within(morning, now, c, day, remaining)
    requires Sound(next) && Frugal(next) && Evolves(now, next) && Evolves(morning, next)
    requires |next.reservations| == |now.reservations|
    requires Calm(morning, c)
    ensures Within(morning, next, c, day, remaining)
  {
    forall i | 0 <= i < |now.reservations|
      ensures Committed(c)(next.reservations[i]) <= Committed(c)(now.reservations[i])
    {
      assert RowStep(now.reservations[i], next.reservations[i]);
      StepCommitsNoMore(now.reservations[i], next.reservations[i], c);
    }
    SumLe(next.reservations, now.reservations, Committed(c), Committed(c));
    QuietKeepsMorning(morning, now, next, c, day);
  }

  lemma QuietKeepsMorning(morning: Db, now: Db, next: Db, c: nat, day: int)
    requires MadeToday(morning, now, c, day) && Evolves(morning, now) && Evolves(now, next) && Calm(morning, c)
    requires Frugal(now) && Frugal(next) && |next.reservations| == |now.reservations|
    ensures MadeToday(morning, next, c, day)
  {
    forall i | 0 <= i < |now.reservations|
      ensures RowStep(now.reservations[i], next.reservations[i])
      ensures !Unsettled(now.reservations[i]) ==> Committed(c)(next.reservations[i]) == Committed(c)(now.reservations[i])
    {
      StepCommitsNoMore(now.reservations[i], next.reservations[i], c);
    }
    forall i | 0 <= i < |morning.reservations| && morning.reservations[i].cycle == c
      ensures !Unsettled(now.reservations[i])
    {
      assert RowStep(morning.reservations[i], now.reservations[i]);
    }
  }

  lemma ReserveKeepsMorning(morning: Db, now: Db, clock: Clock, q: ReserveRequest, c: nat, day: int)
    requires MadeToday(morning, now, c, day) && day <= clock.db
    ensures MadeToday(morning, Reserve(now, clock, q).0, c, day)
  {
  }

  lemma ReserveSpends(morning: Db, now: Db, clock: Clock, q: ReserveRequest, c: nat)
    ensures var verdict := Admission(now, clock, q);
            Spending(morning, Reserve(now, clock, q).0, c) ==
            Spending(morning, now, c) + if verdict == Ok(c) then q.bytes else 0
  {
    var verdict := Admission(now, clock, q);
    if verdict.Ok? {
      SumAppend(now.reservations, NewReservation(q, verdict.value, clock.db), Committed(c));
    }
  }

  lemma AdmittedSpends(morning: Db, now: Db, clock: Clock, q: ReserveRequest, c: nat, day: int, remaining: int)
    requires c < |morning.cycles| && c < |now.cycles| && CycleStep(morning.cycles[c], now.cycles[c])
    requires MadeToday(morning, now, c, day) && Admission(now, clock, q) == Ok(c)
    requires clock.db - clock.db % DAY == day && remaining >= 1
    requires RemainingDays(morning.cycles[c].end, clock.app) >= remaining
    ensures Spending(morning, now, c) + q.bytes <= DailyLimit(morning.cycles[c], 0, remaining)
  {
    SpendingIsCounted(morning, now, c, day);
    AdmittedWithinLimit(now, clock, q);
    SumNonNegative(now.reservations, ActiveBytes(c));
    LimitFalls(morning.cycles[c], now.cycles[c], Sum(now.reservations, ActiveBytes(c)), remaining,
               RemainingDays(morning.cycles[c].end, clock.app));
  }

  lemma ReserveStaysWithin(morning: Db, now: Db, clock: Clock, q: ReserveRequest, c: nat, day: int, remaining: int)
    requires c < |morning.cycles| && remaining >= 1 && Within(morning, now, c, day, remaining)
    requires clock.db - clock.db % DAY == day && RemainingDays(morning.cycles[c].end, clock.app) >= remaining
    requires var next := Reserve(now, clock, q).0; Sound(next) && Frugal(next) && Evolves(morning, next)
    ensures Within(morning, Reserve(now, clock, q).0, c, day, remaining)
  {
    ReserveKeepsMorning(morning, now, clock, q, c, day);
    ReserveSpends(morning, now, clock, q, c);
    if Admission(now, clock, q) == Ok(c) {
      assert CycleStep(morning.cycles[c], now.cycles[c]);
      AdmittedSpends(morning, now, clock, q, c, day, remaining);
    }
  }

  lemma AdmittedWithinLimit(db: Db, clock: Clock, q: ReserveRequest)
    requires Admission(db, clock, q).Ok?
    ensures var c := Admission(db, clock, q).value;
            var active := Sum(db.reservations, ActiveBytes(c));
            Sum(db.reservations, DayBytes(c, clock.db - clock.db % DAY)) + active + q.bytes
            <= DailyLimit(db.cycles[c], active, RemainingDays(db.cycles[c].end, clock.app))
  {
    assert BudgetDenial(db, clock, q, Admission(db, clock, q).value, q.profile.value) == None;
  }

  lemma EventStaysWithin(morning: Db, now: Db, e: LedgerEvent, c: nat, day: int, remaining: int)
    requires c < |morning.cycles| && remaining >= 1 && Within(morning, now, c, day, remaining) && Calm(morning, c)
    requires FrugalReport(now, e) && OnDay(e, day, morning.cycles[c].end, remaining)
    ensures Within(morning, Apply(now, e), c, day, remaining)
  {
    ApplyKeepsSound(now, e);
    ApplyKeepsFrugal(now, e);
    EvolvesTransitive(morning, now, Apply(now, e));
    if e.ReserveTx? {
      ReserveStaysWithin(morning, now, e.clock, e.request, c, day, remaining);
    } else {
      Consumers.OthersAddNoReservation(now, e);
      QuietStaysWithin(morning, now, Apply(now, e), c, day, remaining);
    }
  }

  lemma FrugalPrefix(db: Db, events: seq<LedgerEvent>)
    requires FrugalRun(db, events) && events != []
    ensures FrugalRun(db, events[..|events| - 1])
    ensures FrugalReport(Run(db, events[..|events| - 1]), events[|events| - 1])
  {
    var before := events[..|events| - 1];
    forall i | 0 <= i < |before| ensures FrugalReport(Run(db, before[..i]), before[i]) {
      assert before[..i] == events[..i];
    }
  }

  lemma MorningIsWithin(morning: Db, c: nat, day: int, remaining: int)
    requires Sound(morning) && Frugal(morning) && c < |morning.cycles| && remaining >= 1 && Calm(morning, c)
    ensures Within(morning, morning, c, day, remaining)
  {
    UnchangedEvolves(morning);
    forall i | 0 <= i < |morning.reservations|
      ensures Committed(c)(morning.reservations[i]) == SettledBytes(c)(morning.reservations[i])
    {
    }
    SumLe(morning.reservations, morning.reservations, Committed(c), SettledBytes(c));
  }

  lemma {:induction false} DayStaysWithin(morning: Db, events: seq<LedgerEvent>, c: nat, day: int, remaining: int)
    requires Sound(morning) && Frugal(morning) && c < |morning.cycles| && remaining >= 1 && Calm(morning, c)
    requires FrugalRun(morning, events) && forall e | e in events :: OnDay(e, day, morning.cycles[c].end, remaining)
    ensures Within(morning, Run(morning, events), c, day, remaining)
  {
    if events == [] {
      MorningIsWithin(morning, c, day, remaining);
    } else {
      var before := events[..|events| - 1];
      FrugalPrefix(morning, events);
      DayStaysWithin(morning, before, c, day, remaining);
      EventStaysWithin(morning, Run(morning, before), events[|events| - 1], c, day, remaining);
    }
  }

  // ---- from day to day -----------------------------------------------------------

  /** The provider reports no more than the ledger counted itself. */
  predicate HonestReport(morning: Db, evening: Db, c: nat)
    requires c < |morning.cycles| && c < |evening.cycles|
  {
    evening.cycles[c].reported <= Max(morning.cycles[c].reported, evening.cycles[c].application)
  }

  /** With every row settled within its envelope, the counter is the usage. */
  lemma CalmIsCaughtUp(db: Db, c: nat)
    requires Sound(db) && Frugal(db) && c < |db.cycles|
    ensures CaughtUp(db, c)
  {
    assert CycleSound(db, c);
    forall i | 0 <= i < |db.reservations|
      ensures SettledBytes(c)(db.reservations[i]) <= BookedAtSettlement(c)(db.reservations[i])
    {
      assert WithinEnvelope(db.reservations[i]);
    }
    SumLe(db.reservations, db.reservations, SettledBytes(c), BookedAtSettlement(c));
  }

  lemma CalmIsSettled(db: Db, c: nat)
    requires Calm(db, c)
    ensures Sum(db.reservations, SettledBytes(c)) <= Sum(db.reservations, Committed(c))
  {
    SumLe(db.reservations, db.reservations, SettledBytes(c), Committed(c));
  }

  /** What a reservation of a calm cycle would find as the daily limit. */
  function LimitAt(db: Db, c: nat, remaining: int): int
    requires c < |db.cycles| && remaining >= 1
  {
    DailyLimit(db.cycles[c], 0, remaining)
  }

  lemma DayKeepsAllowance(morning: Db, day: Day, c: nat, remaining: int)
    requires Sound(morning) && Frugal(morning) && c < |morning.cycles| && remaining >= 2
    requires Calm(morning, c) && DayRun(morning, day, c, remaining)
    requires Accounted(morning.cycles[c]) <= morning.cycles[c].operational
    requires var evening := Run(morning, day.events);
             c < |evening.cycles| && Calm(evening, c) && HonestReport(morning, evening, c)
    ensures var evening := Run(morning, day.events);
            Sound(evening) && Frugal(evening) &&
            Accounted(evening.cycles[c]) <= evening.cycles[c].operational &&
            LimitAt(morning, c, remaining) <= LimitAt(evening, c, remaining - 1)
  {
    var evening := Run(morning, day.events);
    DayStaysWithin(morning, day.events, c, day.start, remaining);
    CalmIsCaughtUp(morning, c);
    CalmIsCaughtUp(evening, c);
    CalmIsSettled(evening, c);
    assert CycleStep(morning.cycles[c], evening.cycles[c]);
    NextMorning(morning.cycles[c], evening.cycles[c], remaining);
  }

  lemma NextMorning(k: Cycle, l: Cycle, remaining: int)
    requires CycleStep(k, l) && remaining >= 2 && Accounted(k) <= k.operational
    requires l.application - k.application <= DailyLimit(k, 0, remaining)
    requires l.reported <= Max(k.reported, l.application)
    ensures Accounted(l) <= l.operational && DailyLimit(k, 0, remaining) <= DailyLimit(l, 0, remaining - 1)
  {
    var spent := Accounted(l) - Accounted(k);
    NextDay(k, Accounted(k), spent, remaining);
  }

  predicate CalmAt(start: Db, days: seq<Day>, c: nat, i: nat)
    requires i <= |days|
  {
    c < |After(start, days[..i]).cycles| && Calm(After(start, days[..i]), c)
  }

  predicate DayAt(start: Db, days: seq<Day>, c: nat, remaining: nat, i: nat)
    requires i < |days|
  {
    var morning := After(start, days[..i]);
    var evening := After(start, days[..i + 1]);
    c < |morning.cycles| && c < |evening.cycles| && HonestReport(morning, evening, c) &&
    DayRun(morning, days[i], c, remaining - i)
  }

  /** Days without carry-over, of frugal reports and an honest provider, the cycle
      ending more than that many days ahead. */
  predicate PacedDays(start: Db, days: seq<Day>, c: nat, remaining: nat) {
    |days| < remaining &&
    (forall i | 0 <= i <= |days| :: CalmAt(start, days, c, i)) &&
    (forall i | 0 <= i < |days| :: DayAt(start, days, c, remaining, i))
  }

  predicate GoodMorning(db: Db, c: nat) {
    Sound(db) && Frugal(db) && c < |db.cycles| && Accounted(db.cycles[c]) <= db.cycles[c].operational
  }

  lemma OneMoreDay(start: Db, days: seq<Day>, c: nat, remaining: nat, i: nat)
    requires PacedDays(start, days, c, remaining) && i < |days| && GoodMorning(After(start, days[..i]), c)
    ensures GoodMorning(After(start, days[..i + 1]), c)
    ensures LimitAt(After(start, days[..i]), c, remaining - i) <= LimitAt(After(start, days[..i + 1]), c, remaining - i - 1)
  {
    assert days[..i + 1][..i] == days[..i];
    assert CalmAt(start, days, c, i) && CalmAt(start, days, c, i + 1) && DayAt(start, days, c, remaining, i);
    DayKeepsAllowance(After(start, days[..i]), days[i], c, remaining - i);
  }

  lemma {:induction false} EveryMorningIsGood(start: Db, days: seq<Day>, c: nat, remaining: nat, i: nat)
    requires GoodMorning(start, c) && PacedDays(start, days, c, remaining) && i <= |days|
    ensures GoodMorning(After(start, days[..i]), c)
  {
    if i > 0 {
      EveryMorningIsGood(start, days, c, remaining, i - 1);
      OneMoreDay(start, days, c, remaining, i - 1);
    }
  }

  /** The daily limit that the days open with, one by one. */
  function Openings(start: Db, days: seq<Day>, c: nat, remaining: nat): nat -> int {
    (i: nat) =>
      if i <= |days| && i < remaining && c < |After(start, days[..i]).cycles|
      then LimitAt(After(start, days[..i]), c, remaining - i) else 0
  }

  predicate RisesAt(limits: nat -> int, i: nat) {
    limits(i) <= limits(i + 1)
  }

  lemma {:induction false} Rises(limits: nat -> int, i: nat, j: nat)
    requires i <= j && forall t: nat | t < j :: RisesAt(limits, t)
    ensures limits(i) <= limits(j)
    decreases j
  {
    if i < j {
      Rises(limits, i, j - 1);
      assert RisesAt(limits, j - 1);
    }
  }

  lemma OpeningRises(start: Db, days: seq<Day>, c: nat, remaining: nat, i: nat)
    requires GoodMorning(start, c) && PacedDays(start, days, c, remaining) && i < |days|
    ensures RisesAt(Openings(start, days, c, remaining), i)
  {
    EveryMorningIsGood(start, days, c, remaining, i);
    OneMoreDay(start, days, c, remaining, i);
  }

  lemma OpeningsRise(start: Db, days: seq<Day>, c: nat, remaining: nat, i: nat, j: nat)
    requires GoodMorning(start, c) && PacedDays(start, days, c, remaining) && i <= j <= |days|
    ensures Openings(start, days, c, remaining)(i) <= Openings(start, days, c, remaining)(j)
  {
    forall t: nat | t < j ensures RisesAt(Openings(start, days, c, remaining), t) {
      OpeningRises(start, days, c, remaining, t);
    }
    Rises(Openings(start, days, c, remaining), i, j);
  }

  /** In every ledger run of such days the limit that a later day opens with is
      never below an earlier one's, and the ceiling holds each morning. */
  lemma PacedDaysKeepAllowance(start: Db, days: seq<Day>, c: nat, remaining: nat, i: nat, j: nat)
    requires GoodMorning(start, c) && PacedDays(start, days, c, remaining) && i <= j <= |days|
    ensures GoodMorning(After(start, days[..i]), c) && GoodMorning(After(start, days[..j]), c)
    ensures LimitAt(After(start, days[..i]), c, remaining - i) <= LimitAt(After(start, days[..j]), c, remaining - j)
  {
    EveryMorningIsGood(start, days, c, remaining, i);
    EveryMorningIsGood(start, days, c, remaining, j);
    OpeningsRise(start, days, c, remaining, i, j);
    OpeningIs(start, days, c, remaining, i);
    OpeningIs(start, days, c, remaining, j);
  }

  lemma OpeningIs(start: Db, days: seq<Day>, c: nat, remaining: nat, i: nat)
    requires i <= |days| && i < remaining && c < |After(start, days[..i]).cycles|
    ensures Openings(start, days, c, remaining)(i) == LimitAt(After(start, days[..i]), c, remaining - i)
  {
  }
}
