/** Daily pacing: the admission check and what it guarantees day after day. */
module Pacing {
  import opened Tables
  import opened Rows
  import opened Ledger

  lemma DivisionBounds(n: int, d: int)
    requires d >= 1
    ensures (n / d) * d <= n < (n / d + 1) * d
  {
  }

  lemma QuotientAtLeast(n: int, d: int, q: int)
    requires d >= 1 && q * d <= n
    ensures q <= n / d
  {
    DivisionBounds(n, d);
    if q >= n / d + 1 {
      ScaleLe(n / d + 1, q, d);
    }
  }

  lemma ScaleLe(a: int, b: int, d: int)
    requires a <= b && d >= 0
    ensures a * d <= b * d
  {
    assert (b - a) * d >= 0;
  }

  /** An admitted request could be repeated on every remaining day and still fit
      under the ceiling beside what is accounted and active. */
  lemma PaceIff(today: int, daily: nat, room: int, days: int)
    requires days >= 1 && today > 0
    ensures today <= Min(daily, Max(0, room / days)) <==> today <= daily && today * days <= room
  {
    DivisionBounds(room, days);
    if today <= room / days {
      ScaleLe(today, room / days, days);
    }
    if today * days <= room {
      QuotientAtLeast(room, days, today);
    }
  }

  lemma AdmittedIsPaced(db: Db, clock: Clock, q: ReserveRequest)
    requires Reserve(db, clock, q).1.Ok?
    ensures var c := Admission(db, clock, q).value;
            var k := db.cycles[c];
            var active := Sum(db.reservations, ActiveBytes(c));
            var today := Sum(db.reservations, DayBytes(c, clock.db - clock.db % DAY)) + active + q.bytes;
            today <= k.daily &&
            today * RemainingDays(k.end, clock.app) <= k.operational - Accounted(k) - active
  {
    var c := Admission(db, clock, q).value;
    var k := db.cycles[c];
    var active := Sum(db.reservations, ActiveBytes(c));
    var today := Sum(db.reservations, DayBytes(c, clock.db - clock.db % DAY)) + active + q.bytes;
    assert BudgetDenial(db, clock, q, c, q.profile.value) == None;
    SumNonNegative(db.reservations, DayBytes(c, clock.db - clock.db % DAY));
    SumNonNegative(db.reservations, ActiveBytes(c));
    PaceIff(today, k.daily, k.operational - Accounted(k) - active, RemainingDays(k.end, clock.app));
  }

  /** The daily check subsumes the ceiling check: dropping the latter would
      admit no further request. */
  lemma DailyImpliesCeiling(db: Db, clock: Clock, q: ReserveRequest, c: nat)
    requires c < |db.cycles| && q.bytes > 0
    requires var active := Sum(db.reservations, ActiveBytes(c));
             Sum(db.reservations, DayBytes(c, clock.db - clock.db % DAY)) + active + q.bytes
             <= DailyLimit(db.cycles[c], active, RemainingDays(db.cycles[c].end, clock.app))
    ensures Accounted(db.cycles[c]) + Sum(db.reservations, ActiveBytes(c)) + q.bytes <= db.cycles[c].operational
  {
    var k := db.cycles[c];
    var active := Sum(db.reservations, ActiveBytes(c));
    SumNonNegative(db.reservations, DayBytes(c, clock.db - clock.db % DAY));
    SumNonNegative(db.reservations, ActiveBytes(c));
    QuotientAtMost(k.operational - Accounted(k) - active, RemainingDays(k.end, clock.app));
  }

  lemma QuotientAtMost(n: int, d: int)
    requires d >= 1
    ensures n / d > 0 ==> n / d <= n
  {
    DivisionBounds(n, d);
    if n / d > 0 {
      ScaleLe(1, d, n / d);
    }
  }

  // ---- over any number of days ----------------------------------------------

  /** The daily limit of a quiet cycle: nothing active, `spent` accounted. */
  function Allowance(k: Cycle, spent: int, days: int): int
    requires days >= 1
  {
    DailyLimit(k.(reported := 0, application := Max(0, spent)), 0, days)
  }

  function Spent(spends: seq<nat>): nat {
    if spends == [] then 0 else Spent(spends[..|spends| - 1]) + spends[|spends| - 1]
  }

  /** Each day spends within the allowance it was given. */
  predicate Disciplined(k: Cycle, spends: seq<nat>, days: nat)
    requires |spends| <= days
  {
    forall i | 0 <= i < |spends| :: spends[i] <= Allowance(k, Spent(spends[..i]), days - i)
  }

  lemma NextDay(k: Cycle, spent: nat, today: nat, days: int)
    requires days >= 2 && spent <= k.operational && today <= Allowance(k, spent, days)
    ensures spent + today <= k.operational
    ensures Allowance(k, spent, days) <= Allowance(k, spent + today, days - 1)
  {
    var room := k.operational - spent;
    var quota := room / days;
    DivisionBounds(room, days);
    ScaleLe(1, days, quota);
    assert quota * (days - 1) == quota * days - quota;
    QuotientAtLeast(room - today, days - 1, quota);
  }

  lemma DayByDay(k: Cycle, spends: seq<nat>, days: nat, j: nat)
    requires 1 <= j <= |spends| < days && Disciplined(k, spends, days)
    ensures Spent(spends[..j]) == Spent(spends[..j - 1]) + spends[j - 1]
    ensures spends[j - 1] <= Allowance(k, Spent(spends[..j - 1]), days - (j - 1))
  {
    assert spends[..j][..j - 1] == spends[..j - 1];
  }

  lemma AllowanceStep(k: Cycle, spends: seq<nat>, days: nat, j: nat)
    requires 1 <= j <= |spends| < days && Disciplined(k, spends, days) && Spent(spends[..j - 1]) <= k.operational
    ensures Spent(spends[..j]) <= k.operational
    ensures Allowance(k, Spent(spends[..j - 1]), days - (j - 1)) <= Allowance(k, Spent(spends[..j]), days - j)
  {
    DayByDay(k, spends, days, j);
    NextDay(k, Spent(spends[..j - 1]), spends[j - 1], days - (j - 1));
  }

  lemma {:induction false} CeilingIsKept(k: Cycle, spends: seq<nat>, days: nat, j: nat)
    requires j <= |spends| < days && Disciplined(k, spends, days)
    ensures Spent(spends[..j]) <= k.operational
  {
    if j > 0 {
      CeilingIsKept(k, spends, days, j - 1);
      AllowanceStep(k, spends, days, j);
    }
  }

  /** However many days pass, a disciplined day never lowers a later day's
      allowance, and the cycle's ceiling holds throughout. */
  lemma {:induction false} AllowanceNeverFalls(k: Cycle, spends: seq<nat>, days: nat, i: nat, j: nat)
    requires i <= j <= |spends| < days && Disciplined(k, spends, days)
    ensures Spent(spends[..j]) <= k.operational
    ensures Allowance(k, Spent(spends[..i]), days - i) <= Allowance(k, Spent(spends[..j]), days - j)
    decreases j
  {
    if i == j {
      CeilingIsKept(k, spends, days, j);
    } else {
      AllowanceNeverFalls(k, spends, days, i, j - 1);
      AllowanceStep(k, spends, days, j);
    }
  }
}
