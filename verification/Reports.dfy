/** Provider reports and the kill switch, over every run of the ledger. */
module Reports {
  import opened Tables
  import opened Rows
  import opened Ledger
  import opened LedgerProofs
  import opened LedgerTheorems

  // ---- what reports leave in a cycle ---------------------------------------------------

  datatype Report = Report(bytes: nat, ok: bool, at: int)

  /** The command-line open reports on a cycle that exists and overlaps no other. */
  predicate Reopens(db: Db, e: LedgerEvent, k: Cycle) {
    e.LegacyOpenTx? && k.provider == "decodo" && k.start == e.start && e.start < e.end &&
    forall l | l in db.cycles :: l.provider == "decodo" && l.start != e.start ==> l.end <= e.start || e.end <= l.start
  }

  /** The report that a transaction makes for a cycle, if it makes one. */
  function ReportFor(db: Db, e: LedgerEvent, k: Cycle): Option<Report> {
    if e.ReportTx? && k.provider == e.provider && k.start == e.start then
      Some(Report(if e.reported > 0 then e.reported else 0, e.ok, e.now))
    else if Reopens(db, e, k) then Some(Report(if e.reported > 0 then e.reported else 0, true, e.now))
    else None
  }

  /** A proposed cycle opens unreconciled. */
  predicate Opening(db: Db, e: LedgerEvent, c: nat)
    requires c < |db.cycles|
  {
    e.OpenTx? && e.c == c && db.cycles[c].lifecycle == ProposedCycle &&
    c < |Apply(db, e).cycles| && Apply(db, e).cycles[c].lifecycle == ActiveCycle
  }

  /** The reported bytes, the last success and the last verdict after a step. */
  datatype Standing = Standing(reported: nat, at: Option<int>, ok: bool)

  function StandingOf(k: Cycle): Standing {
    Standing(k.reported, k.reconciledAt, k.reconciliationOk)
  }

  function Reporting(s: Standing, r: Report): Standing {
    Standing(if r.bytes > s.reported then r.bytes else s.reported, if r.ok then Some(r.at) else s.at, r.ok)
  }

  /** The provider's row a report names, and no other. */
  lemma ReportReaches(db: Db, e: LedgerEvent, c: nat)
    requires e.ReportTx? && c < |db.cycles|
    ensures var next := Apply(db, e);
            |next.cycles| == |db.cycles| && next == db.(cycles := next.cycles) &&
            (ReportFor(db, e, db.cycles[c]).None? ==> next.cycles[c] == db.cycles[c]) &&
            (ReportFor(db, e, db.cycles[c]).Some? ==>
               StandingOf(next.cycles[c]) == Reporting(StandingOf(db.cycles[c]), ReportFor(db, e, db.cycles[c]).value) &&
               next.cycles[c] == db.cycles[c].(reported := next.cycles[c].reported, reconciledAt := next.cycles[c].reconciledAt,
                                               reconciliationOk := next.cycles[c].reconciliationOk,
                                               killSwitch := next.cycles[c].killSwitch) &&
               next.cycles[c].killSwitch == (db.cycles[c].killSwitch || next.cycles[c].reported >= db.cycles[c].operational))
  {
  }

  lemma ReopenReaches(db: Db, e: LedgerEvent, c: nat)
    requires e.LegacyOpenTx? && c < |db.cycles|
    ensures c < |Apply(db, e).cycles|
    ensures StandingOf(Apply(db, e).cycles[c]) ==
            if ReportFor(db, e, db.cycles[c]).Some?
            then Reporting(StandingOf(db.cycles[c]), ReportFor(db, e, db.cycles[c]).value) else StandingOf(db.cycles[c])
  {
    var k := db.cycles[c];
    assert k in db.cycles;
    if Reopens(db, e, k) {
      assert forall l | l in db.cycles :: !Overlaps(l, e.start, e.end);
      assert KeyTaken(db, DECODO, e.start);
    }
  }

  lemma OpenReaches(db: Db, e: LedgerEvent, c: nat)
    requires e.OpenTx? && c < |db.cycles|
    ensures c < |Apply(db, e).cycles|
    ensures StandingOf(Apply(db, e).cycles[c]) ==
            if Opening(db, e, c) then StandingOf(db.cycles[c]).(ok := false) else StandingOf(db.cycles[c])
  {
  }

  lemma SettlementKeepsStanding(db: Db, e: LedgerEvent, c: nat)
    requires (SettlementEvent(e) || AttemptEvent(e)) && c < |db.cycles|
    ensures c < |Apply(db, e).cycles| && StandingOf(Apply(db, e).cycles[c]) == StandingOf(db.cycles[c])
  {
  }

  lemma FlagsKeepStanding(db: Db, e: LedgerEvent, c: nat)
    requires FlagEvent(e) && !e.ReportTx? && c < |db.cycles|
    ensures c < |Apply(db, e).cycles| && StandingOf(Apply(db, e).cycles[c]) == StandingOf(db.cycles[c])
  {
  }

  lemma RestKeepsStanding(db: Db, e: LedgerEvent, c: nat)
    requires (e.ProposeTx? || ProfileEvent(e) || WriteEvent(e)) && c < |db.cycles|
    ensures c < |Apply(db, e).cycles| && StandingOf(Apply(db, e).cycles[c]) == StandingOf(db.cycles[c])
  {
  }

  /** What a step does to a cycle's standing: only its reports and its opening. */
  function StandingAfter(db: Db, e: LedgerEvent, c: nat, s: Standing): Standing
    requires c < |db.cycles|
  {
    var r := ReportFor(db, e, db.cycles[c]);
    if r.Some? then Reporting(s, r.value) else if Opening(db, e, c) then s.(ok := false) else s
  }

  lemma StandingStep(db: Db, e: LedgerEvent, c: nat)
    requires c < |db.cycles|
    ensures c < |Apply(db, e).cycles|
    ensures StandingOf(Apply(db, e).cycles[c]) == StandingAfter(db, e, c, StandingOf(db.cycles[c]))
  {
    if SettlementEvent(e) || AttemptEvent(e) {
      SettlementKeepsStanding(db, e, c);
    } else if e.ReportTx? {
      ReportReaches(db, e, c);
    } else if FlagEvent(e) {
      FlagsKeepStanding(db, e, c);
    } else if e.LegacyOpenTx? {
      ReopenReaches(db, e, c);
    } else if e.OpenTx? {
      OpenReaches(db, e, c);
    } else {
      RestKeepsStanding(db, e, c);
    }
  }

  /** The reports of a run, folded. */
  function Standings(start: Db, events: seq<LedgerEvent>, c: nat): Standing
    requires c < |start.cycles|
  {
    if events == [] then StandingOf(start.cycles[c])
    else
      var before := events[..|events| - 1];
      var db := Run(start, before);
      var s := Standings(start, before, c);
      if c < |db.cycles| then StandingAfter(db, events[|events| - 1], c, s) else s
  }

  /** Over any run a cycle's reported bytes are the greatest that were ever reported
      for it, and its reconciliation is the last report's verdict, at the time of
      the last success; only opening the cycle withdraws it. */
  lemma {:induction false} StandingIsReported(start: Db, events: seq<LedgerEvent>, c: nat)
    requires c < |start.cycles|
    ensures c < |Run(start, events).cycles| && StandingOf(Run(start, events).cycles[c]) == Standings(start, events, c)
  {
    if events != [] {
      StandingIsReported(start, events[..|events| - 1], c);
      StandingStep(Run(start, events[..|events| - 1]), events[|events| - 1], c);
    }
  }

  /** The provider's own count closes the cycle: after a report of at least its
      budget the switch is on, and in every continuation it stays on and neither a
      reservation nor an attempt is admitted in that cycle. */
  lemma ReportLatches(start: Db, events: seq<LedgerEvent>, e: LedgerEvent, more: seq<LedgerEvent>, c: nat)
    requires Sound(start) && c < |Run(start, events).cycles|
    requires var k := Run(start, events).cycles[c];
             e.ReportTx? && e.provider == k.provider && e.start == k.start && e.reported >= k.operational
    ensures var db := Run(Apply(Run(start, events), e), more);
            c < |db.cycles| && db.cycles[c].killSwitch &&
            (forall clock, q :: Admission(db, clock, q) != Ok(c)) &&
            (forall now, id: nat, estimate, maximum | id < |db.reservations| && db.reservations[id].cycle == c ::
               Authorize(db, now, id, estimate, maximum).1.Refused?)
  {
    var db := Run(start, events);
    RunKeepsSound(start, events);
    ApplyKeepsSound(db, e);
    ReportReaches(db, e, c);
    ExhaustionLatches(Apply(db, e), [], more, c);
  }

  // ---- the switch -------------------------------------------------------------------------

  /** The gates of clearing: an active cycle below its budget by either count, a
      successful last report that is at most twenty minutes old, and a profile of
      the provider that is enabled. */
  predicate MayClear(db: Db, e: LedgerEvent, k: Cycle) {
    e.ClearTx? && k.provider == e.provider && k.lifecycle == ActiveCycle && k.reconciliationOk &&
    k.reconciledAt.Some? && k.reconciledAt.value > e.now - 1_200_000_000 &&
    k.reported < k.operational && k.application < k.operational &&
    exists p | p in db.profiles :: p.provider == e.provider && p.enabled
  }

  predicate Switched(db: Db, next: Db, c: nat) {
    c < |db.cycles| && c < |next.cycles| && db.cycles[c].killSwitch && !next.cycles[c].killSwitch
  }

  lemma ClearSwitchesIff(db: Db, e: LedgerEvent, c: nat)
    requires e.ClearTx? && c < |db.cycles| && db.cycles[c].killSwitch
    ensures c < |Apply(db, e).cycles| && (Switched(db, Apply(db, e), c) <==> MayClear(db, e, db.cycles[c]))
    ensures Apply(db, e).cycles[c] == db.cycles[c].(killSwitch := Apply(db, e).cycles[c].killSwitch)
  {
  }

  lemma SettlementKeepsSwitch(db: Db, e: LedgerEvent, c: nat)
    requires SettlementEvent(e) || AttemptEvent(e)
    ensures !Switched(db, Apply(db, e), c)
  {
  }

  lemma FlagsKeepSwitch(db: Db, e: LedgerEvent, c: nat)
    requires FlagEvent(e) && !e.ClearTx?
    ensures !Switched(db, Apply(db, e), c)
  {
  }

  lemma RestKeepsSwitch(db: Db, e: LedgerEvent, c: nat)
    requires CycleEvent(e) || ProfileEvent(e) || WriteEvent(e)
    ensures !Switched(db, Apply(db, e), c)
  {
  }

  /** A transaction turns a cycle's switch off exactly when it clears the provider's
      switch and the cycle passes every gate. */
  lemma SwitchedOffIff(db: Db, e: LedgerEvent, c: nat)
    requires c < |db.cycles| && db.cycles[c].killSwitch
    ensures Switched(db, Apply(db, e), c) <==> MayClear(db, e, db.cycles[c])
  {
    if e.ClearTx? {
      ClearSwitchesIff(db, e, c);
    } else if SettlementEvent(e) || AttemptEvent(e) {
      SettlementKeepsSwitch(db, e, c);
    } else if FlagEvent(e) {
      FlagsKeepSwitch(db, e, c);
    } else {
      RestKeepsSwitch(db, e, c);
    }
  }

  predicate ClearedAt(start: Db, events: seq<LedgerEvent>, c: nat, i: nat)
    requires i < |events|
  {
    var db := Run(start, events[..i]);
    c < |db.cycles| && MayClear(db, events[i], db.cycles[c])
  }

  /** Traffic stopped by the switch resumes only through such a clearing. */
  lemma {:induction false} TrafficResumesOnlyCleared(start: Db, events: seq<LedgerEvent>, c: nat)
    requires Sound(start) && c < |start.cycles| && start.cycles[c].killSwitch
    ensures c < |Run(start, events).cycles|
    ensures (exists clock, q :: Admission(Run(start, events), clock, q) == Ok(c)) ||
            (exists now, id: nat, estimate, maximum ::
               id < |Run(start, events).reservations| && Run(start, events).reservations[id].cycle == c &&
               Authorize(Run(start, events), now, id, estimate, maximum).1.Granted?)
            ==> exists i :: 0 <= i < |events| && ClearedAt(start, events, c, i)
  {
    RunKeepsSound(start, events);
    if !Run(start, events).cycles[c].killSwitch {
      var i := SwitchedSomewhere(start, events, c);
    } else {
      KilledCycleRefuses(Run(start, events), c);
    }
  }

  lemma {:induction false} SwitchedSomewhere(start: Db, events: seq<LedgerEvent>, c: nat) returns (i: nat)
    requires Sound(start) && c < |start.cycles| && start.cycles[c].killSwitch
    requires c < |Run(start, events).cycles| && !Run(start, events).cycles[c].killSwitch
    ensures i < |events| && ClearedAt(start, events, c, i)
  {
    var last := |events| - 1;
    var before := Run(start, events[..last]);
    RunKeepsSound(start, events[..last]);
    if before.cycles[c].killSwitch {
      SwitchedOffIff(before, events[last], c);
      i := last;
    } else {
      i := SwitchedSomewhere(start, events[..last], c);
      assert events[..last][..i] == events[..i];
    }
  }

  // ---- revoking and stopping a provider ---------------------------------------------------

  /** Stopping turns on the switch of the provider's active cycles; revoking also
      marks its active reservations; neither touches anything else. */
  lemma StopReaches(db: Db, e: LedgerEvent)
    requires e.ActivateTx? || e.RevokeTx?
    ensures var next := Apply(db, e);
            |next.cycles| == |db.cycles| && |next.reservations| == |db.reservations| &&
            next == db.(cycles := next.cycles, reservations := next.reservations) &&
            (forall c | 0 <= c < |db.cycles| ::
               next.cycles[c] == if db.cycles[c].provider == e.provider && db.cycles[c].lifecycle == ActiveCycle
                                 then db.cycles[c].(killSwitch := true) else db.cycles[c]) &&
            (forall i | 0 <= i < |db.reservations| ::
               var r := db.reservations[i];
               next.reservations[i] ==
               if e.RevokeTx? && r.state == Active && r.cycle < |db.cycles| && db.cycles[r.cycle].provider == e.provider
               then r.(state := RevocationRequested, revocationRequested := true) else r)
  {
  }

  /** The pilot of an active cycle starts only on a successful last report that is
      at most twenty minutes old, and stops on request; nothing else changes. */
  lemma PilotReaches(db: Db, e: LedgerEvent, c: nat)
    requires e.PilotTx? && c < |db.cycles|
    ensures var k := db.cycles[c];
            var next := Apply(db, e);
            |next.cycles| == |db.cycles| && next == db.(cycles := next.cycles) &&
            next.cycles[c] ==
            if k.provider == e.provider && k.lifecycle == ActiveCycle &&
               (!e.on || (k.reconciliationOk && k.reconciledAt.Some? && k.reconciledAt.value > e.now - 1_200_000_000))
            then k.(pilotActive := e.on) else k
  {
  }

  lemma RevokedStaysRefused(db: Db, id: nat)
    requires id < |db.reservations| && db.reservations[id].state == RevocationRequested
    ensures forall now, estimate, maximum :: !Authorize(db, now, id, estimate, maximum).1.Granted?
  {
    forall now, estimate, maximum ensures !Authorize(db, now, id, estimate, maximum).1.Granted? {
      assert AttemptDenial(db, now, id).Some?;
    }
  }

  /** An envelope that was open when its provider was revoked is never granted
      another attempt, even after the switch is cleared. */
  lemma RevokedForGood(start: Db, events: seq<LedgerEvent>, provider: string, more: seq<LedgerEvent>, id: nat)
    requires Sound(start) && id < |Run(start, events).reservations|
    requires var db := Run(start, events);
             var r := db.reservations[id];
             Unsettled(r) && r.cycle < |db.cycles| && db.cycles[r.cycle].provider == provider
    ensures var db := Run(Apply(Run(start, events), RevokeTx(provider)), more);
            id < |db.reservations| && forall now, estimate, maximum :: !Authorize(db, now, id, estimate, maximum).1.Granted?
  {
    var middle := Run(start, events);
    RunKeepsSound(start, events);
    ApplyKeepsSound(middle, RevokeTx(provider));
    var revoked := Apply(middle, RevokeTx(provider));
    StopReaches(middle, RevokeTx(provider));
    RunKeepsSound(revoked, more);
    assert RowStep(revoked.reservations[id], Run(revoked, more).reservations[id]);
    if Unsettled(Run(revoked, more).reservations[id]) {
      RevokedStaysRefused(Run(revoked, more), id);
    } else {
      SettledIsRefused(Run(revoked, more), id);
    }
  }

  lemma SettledIsRefused(db: Db, id: nat)
    requires id < |db.reservations| && !Unsettled(db.reservations[id])
    ensures forall now, estimate, maximum :: !Authorize(db, now, id, estimate, maximum).1.Granted?
  {
    forall now, estimate, maximum ensures !Authorize(db, now, id, estimate, maximum).1.Granted? {
      assert AttemptDenial(db, now, id).Some?;
    }
  }
}
