/** The life of a billing cycle: proposed, opened, ended or overtaken, and what it
    waits for before it carries traffic. */
module Lifecycles {
  import opened Tables
  import opened Rows
  import opened Ledger
  import opened LedgerProofs
  import opened LedgerTheorems
  import opened Reports

  /** Every active cycle of the provider has ended. */
  predicate AllEnded(db: Db, provider: string, now: int) {
    forall k | k in db.cycles :: k.provider == provider && k.lifecycle == ActiveCycle ==> k.end <= now
  }

  /** The operator confirmed a proposal of the provider, and no cycle of it runs on. */
  predicate Opens(db: Db, e: LedgerEvent) {
    e.OpenTx? && e.c < |db.cycles| && db.cycles[e.c].provider == e.provider &&
    db.cycles[e.c].lifecycle == ProposedCycle && e.confirmedValues && AllEnded(db, e.provider, e.now)
  }

  /** The command-line open inserts a cycle, or updates the one that starts then. */
  predicate OpensByHand(db: Db, e: LedgerEvent) {
    e.LegacyOpenTx? && e.start < e.end &&
    (forall k | k in db.cycles :: k.provider == "decodo" && k.start != e.start ==> k.end <= e.start || e.end <= k.start) &&
    ((exists k | k in db.cycles :: k.provider == "decodo" && k.start == e.start) || AllEnded(db, "decodo", e.now))
  }

  predicate Overtakes(db: Db, e: LedgerEvent, k: Cycle) {
    (Opens(db, e) && e.provider == k.provider && k.end <= e.now) ||
    (OpensByHand(db, e) && k.provider == "decodo" && k.end <= e.now)
  }

  /** The operator ends a cycle that is over and has no open envelope. */
  predicate Ends(db: Db, e: LedgerEvent, c: nat)
    requires c < |db.cycles|
  {
    e.EndTx? && e.c == c && db.cycles[c].provider == e.provider && db.cycles[c].end <= e.now &&
    forall r | r in db.reservations :: r.cycle == c ==> r.state == Closed || r.state == Cancelled
  }

  /** The lifecycle after a step: a proposal is opened, an active cycle is ended or
      overtaken, and nothing else ever happens to it. */
  function LifecycleAfter(db: Db, e: LedgerEvent, c: nat): CycleState
    requires c < |db.cycles|
  {
    var k := db.cycles[c];
    if k.lifecycle == ProposedCycle && Opens(db, e) && e.c == c then ActiveCycle
    else if k.lifecycle == ActiveCycle && (Ends(db, e, c) || Overtakes(db, e, k)) then ClosedCycle
    else k.lifecycle
  }

  lemma SweptStillActive(db: Db, provider: string, now: int)
    ensures ActiveExists(CloseExpired(db, provider, now), provider) <==> !AllEnded(db, provider, now)
  {
    var swept := CloseExpired(db, provider, now);
    if !AllEnded(db, provider, now) {
      var k :| k in db.cycles && k.provider == provider && k.lifecycle == ActiveCycle && k.end > now;
      var i :| 0 <= i < |db.cycles| && db.cycles[i] == k;
      assert swept.cycles[i] in swept.cycles;
    }
    if ActiveExists(swept, provider) {
      var k :| k in swept.cycles && k.provider == provider && k.lifecycle == ActiveCycle;
      var i :| 0 <= i < |swept.cycles| && swept.cycles[i] == k;
      assert db.cycles[i] in db.cycles;
    }
  }

  lemma OpenLifecycle(db: Db, e: LedgerEvent, c: nat)
    requires e.OpenTx? && c < |db.cycles|
    ensures c < |Apply(db, e).cycles| && Apply(db, e).cycles[c].lifecycle == LifecycleAfter(db, e, c)
  {
    SweptStillActive(db, e.provider, e.now);
  }

  lemma OverlapIff(db: Db, start: int, end: int)
    ensures (exists k | k in db.cycles :: Overlaps(k, start, end)) <==>
            !(forall k | k in db.cycles :: k.provider == "decodo" && k.start != start ==> k.end <= start || end <= k.start)
  {
  }

  lemma RefusedByHand(db: Db, e: LedgerEvent)
    requires e.LegacyOpenTx? && !OpensByHand(db, e)
    ensures Apply(db, e) == db
  {
    OverlapIff(db, e.start, e.end);
    SweptStillActive(db, DECODO, e.now);
  }

  lemma SweptByHand(db: Db, e: LedgerEvent, c: nat)
    requires e.LegacyOpenTx? && OpensByHand(db, e) && c < |db.cycles|
    ensures c < |Apply(db, e).cycles|
    ensures Apply(db, e).cycles[c].lifecycle == CloseExpired(db, DECODO, e.now).cycles[c].lifecycle
  {
    OverlapIff(db, e.start, e.end);
    SweptStillActive(db, DECODO, e.now);
  }

  lemma HandLifecycle(db: Db, e: LedgerEvent, c: nat)
    requires e.LegacyOpenTx? && c < |db.cycles|
    ensures c < |Apply(db, e).cycles| && Apply(db, e).cycles[c].lifecycle == LifecycleAfter(db, e, c)
  {
    if OpensByHand(db, e) {
      SweptByHand(db, e, c);
    } else {
      RefusedByHand(db, e);
    }
  }

  lemma EndLifecycle(db: Db, e: LedgerEvent, c: nat)
    requires e.EndTx? && c < |db.cycles|
    ensures c < |Apply(db, e).cycles| && Apply(db, e).cycles[c].lifecycle == LifecycleAfter(db, e, c)
  {
    assert forall r: Reservation :: !Unsettled(r) <==> r.state == Closed || r.state == Cancelled;
  }

  lemma FlagsKeepLifecycle(db: Db, e: LedgerEvent, c: nat)
    requires FlagEvent(e) && !e.EndTx? && c < |db.cycles|
    ensures c < |Apply(db, e).cycles| && Apply(db, e).cycles[c].lifecycle == db.cycles[c].lifecycle
  {
  }

  lemma SettlementKeepsLifecycle(db: Db, e: LedgerEvent, c: nat)
    requires (SettlementEvent(e) || AttemptEvent(e)) && c < |db.cycles|
    ensures c < |Apply(db, e).cycles| && Apply(db, e).cycles[c].lifecycle == db.cycles[c].lifecycle
  {
  }

  lemma RestKeepsLifecycle(db: Db, e: LedgerEvent, c: nat)
    requires (e.ProposeTx? || ProfileEvent(e) || WriteEvent(e)) && c < |db.cycles|
    ensures c < |Apply(db, e).cycles| && Apply(db, e).cycles[c].lifecycle == db.cycles[c].lifecycle
  {
  }

  lemma OthersKeepLifecycle(db: Db, e: LedgerEvent, c: nat)
    requires !e.OpenTx? && !e.LegacyOpenTx? && !e.EndTx? && c < |db.cycles|
    ensures c < |Apply(db, e).cycles| && Apply(db, e).cycles[c].lifecycle == db.cycles[c].lifecycle
  {
    if FlagEvent(e) {
      FlagsKeepLifecycle(db, e, c);
    } else if SettlementEvent(e) || AttemptEvent(e) {
      SettlementKeepsLifecycle(db, e, c);
    } else {
      RestKeepsLifecycle(db, e, c);
    }
  }

  /** Every transaction moves a cycle's lifecycle exactly as said. */
  lemma LifecycleIs(db: Db, e: LedgerEvent, c: nat)
    requires c < |db.cycles|
    ensures c < |Apply(db, e).cycles| && Apply(db, e).cycles[c].lifecycle == LifecycleAfter(db, e, c)
  {
    if e.OpenTx? {
      OpenLifecycle(db, e, c);
    } else if e.LegacyOpenTx? {
      HandLifecycle(db, e, c);
    } else if e.EndTx? {
      EndLifecycle(db, e, c);
    } else {
      OthersKeepLifecycle(db, e, c);
    }
  }

  // ---- new rows --------------------------------------------------------------------------

  /** A proposal is inserted once per start, stopped and unreconciled, within the
      purchased bytes. */
  lemma ProposalAppears(db: Db, e: LedgerEvent)
    requires e.ProposeTx?
    ensures var free := forall k | k in db.cycles :: !(k.provider == e.provider && k.start == e.start);
            Apply(db, e).cycles == db.cycles +
              if free && e.purchased > 0 && e.start < e.end then
                [Cycle(e.provider, e.start, e.end, if e.purchased < 2_400_000_000 then e.purchased else 2_400_000_000,
                       80_000_000, 300_000_000, 0, false, ProposedCycle, true, false, None, 0, 0)]
              else []
  {
  }

  /** Opened by hand, a cycle that did not exist starts active and reconciled, and
      is stopped if its budget is used up. */
  lemma HandCycleAppears(db: Db, e: LedgerEvent)
    requires e.LegacyOpenTx? && OpensByHand(db, e)
    ensures var seen := if e.reported > 0 then e.reported else 0;
            var absent := forall k | k in db.cycles :: !(k.provider == "decodo" && k.start == e.start);
            var next := Apply(db, e);
            (!absent ==> |next.cycles| == |db.cycles|) &&
            (absent ==>
               |next.cycles| == |db.cycles| + 1 &&
               next.cycles[|db.cycles|] ==
                 Cycle("decodo", e.start, e.end, 2_400_000_000, 80_000_000, 300_000_000, 0, false, ActiveCycle,
                       seen >= 2_400_000_000, true, Some(e.now), seen, 0))
  {
    SweptStillActive(db, DECODO, e.now);
    OverlapIff(db, e.start, e.end);
  }

  // ---- an opened cycle waits ----------------------------------------------------------------

  lemma OpenedIsStopped(db: Db, e: LedgerEvent)
    requires Opens(db, e)
    ensures var next := Apply(db, e);
            e.c < |next.cycles| && next.cycles[e.c].lifecycle == ActiveCycle && next.cycles[e.c].killSwitch &&
            !next.cycles[e.c].reconciliationOk
  {
    SweptStillActive(db, e.provider, e.now);
  }

  predicate SucceededAt(start: Db, events: seq<LedgerEvent>, c: nat, i: nat)
    requires i < |events|
  {
    var db := Run(start, events[..i]);
    c < |db.cycles| && ReportFor(db, events[i], db.cycles[c]).Some? && ReportFor(db, events[i], db.cycles[c]).value.ok
  }

  lemma {:induction false} SucceededSomewhere(start: Db, events: seq<LedgerEvent>, c: nat) returns (i: nat)
    requires c < |start.cycles| && !start.cycles[c].reconciliationOk
    requires c < |Run(start, events).cycles| && Run(start, events).cycles[c].reconciliationOk
    ensures i < |events| && SucceededAt(start, events, c, i)
  {
    var last := |events| - 1;
    var before := Run(start, events[..last]);
    StandingIsReported(start, events[..last], c);
    StandingStep(before, events[last], c);
    if !before.cycles[c].reconciliationOk {
      i := last;
    } else {
      i := SucceededSomewhere(start, events[..last], c);
      assert events[..last][..i] == events[..i];
    }
  }

  /** A cycle that was just opened admits no reservation until its provider has
      been reconciled successfully and its switch cleared since. */
  lemma OpenedCycleWaits(start: Db, e: LedgerEvent, events: seq<LedgerEvent>, clock: Clock, q: ReserveRequest)
    requires Sound(start) && Opens(start, e) && Admission(Run(Apply(start, e), events), clock, q) == Ok(e.c)
    ensures (exists i :: 0 <= i < |events| && SucceededAt(Apply(start, e), events, e.c, i)) &&
            exists i :: 0 <= i < |events| && ClearedAt(Apply(start, e), events, e.c, i)
  {
    OpenedIsStopped(start, e);
    ApplyKeepsSound(start, e);
    AdmittedIsSafe(Run(Apply(start, e), events), clock, q);
    var i, j := StoppedCycleWaits(Apply(start, e), events, e.c);
  }

  lemma AdmittedIsSafe(db: Db, clock: Clock, q: ReserveRequest)
    requires Admission(db, clock, q).Ok?
    ensures var k := db.cycles[Admission(db, clock, q).value]; !k.killSwitch && k.reconciliationOk
  {
  }

  lemma StoppedCycleWaits(db: Db, events: seq<LedgerEvent>, c: nat) returns (i: nat, j: nat)
    requires Sound(db) && c < |db.cycles| && db.cycles[c].killSwitch && !db.cycles[c].reconciliationOk
    requires c < |Run(db, events).cycles|
    requires !Run(db, events).cycles[c].killSwitch && Run(db, events).cycles[c].reconciliationOk
    ensures i < |events| && SucceededAt(db, events, c, i) && j < |events| && ClearedAt(db, events, c, j)
  {
    i := SucceededSomewhere(db, events, c);
    j := SwitchedSomewhere(db, events, c);
  }
}
