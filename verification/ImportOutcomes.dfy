/** What finalizing an intent leaves, read off the rows of the cycles, the
    allocations and the profile. */
module ImportOutcomes {
  import opened Tables
  import opened Rows
  import opened Ledger
  import opened LedgerProofs
  import opened Import
  import LedgerTheorems

  /** The cycle is the running one and lets traffic through. */
  predicate Open(k: Cycle, now: int) {
    k.lifecycle == ActiveCycle && k.start <= now < k.end && !k.killSwitch && k.reconciliationOk && k.reconciledAt.Some?
  }

  predicate HasShare(db: Db, d: nat, p: nat) {
    exists a | a in db.allocations :: a.cycle == d && a.profile == p
  }

  /** The cycle an intent can be completed against: its own one while that runs,
      otherwise the one Webshare cycle that runs now, if the profile has a share
      of it. */
  predicate Binds(db: Db, i: Intent, now: int, d: nat)
    requires i.cycle < |db.cycles|
  {
    d < |db.cycles| && Open(db.cycles[d], now) && HasShare(db, d, i.profile) &&
    var own := db.cycles[i.cycle];
    (d == i.cycle ||
     (!(own.lifecycle == ActiveCycle && own.start <= now < own.end) && db.cycles[d].provider == WEBSHARE))
  }

  ghost predicate CanBind(db: Db, i: Intent, now: int)
    requires i.cycle < |db.cycles|
  {
    exists d: nat :: Binds(db, i, now, d)
  }

  predicate Expects(p: Profile, i: Intent) {
    p.generation == i.target || p.generation == if i.expected.Some? then i.expected.value else 0
  }

  lemma ShareIsFound(db: Db, d: nat, p: nat)
    ensures FindAllocation(db.allocations, d, p).Some? <==> HasShare(db, d, p)
  {
    var found := FindAllocation(db.allocations, d, p);
    if found.Some? {
      assert db.allocations[found.value] in db.allocations;
    }
  }

  lemma OneRunningCycle(db: Db, now: int, d: nat)
    requires KeysSound(db) && d < |db.cycles|
    requires db.cycles[d].provider == WEBSHARE && db.cycles[d].lifecycle == ActiveCycle
    requires db.cycles[d].start <= now < db.cycles[d].end
    ensures CoveringCycles(db.cycles, WEBSHARE, now) == [d]
  {
    var covering := CoveringCycles(db.cycles, WEBSHARE, now);
    assert d in covering;
    LedgerTheorems.AtMostOneCovers(db, WEBSHARE, now, 0);
  }

  /** The bound cycle is the one that binds, if any does. */
  lemma BoundIffBinds(db: Db, i: Intent, now: int, d: nat)
    requires KeysSound(db) && i.cycle < |db.cycles|
    ensures var c := BoundCycle(db, i, now);
            (c == d && CycleSafe(db.cycles[c], now) && FindAllocation(db.allocations, c, i.profile).Some?) <==>
            Binds(db, i, now, d)
  {
    ShareIsFound(db, BoundCycle(db, i, now), i.profile);
    ShareIsFound(db, d, i.profile);
    var own := db.cycles[i.cycle];
    if !(own.lifecycle == ActiveCycle && own.start <= now < own.end) {
      if d < |db.cycles| && CoversNow(db.cycles[d], WEBSHARE, now) {
        OneRunningCycle(db, now, d);
      }
      if |CoveringCycles(db.cycles, WEBSHARE, now)| == 1 {
        assert CoveringCycles(db.cycles, WEBSHARE, now)[0] in CoveringCycles(db.cycles, WEBSHARE, now);
      }
    }
  }

  lemma UnboundKeepsCycle(db: Db, i: Intent, now: int)
    requires KeysSound(db) && i.cycle < |db.cycles| && !CanBind(db, i, now)
    ensures BoundCycle(db, i, now) == i.cycle
    ensures !(CycleSafe(db.cycles[i.cycle], now) && FindAllocation(db.allocations, i.cycle, i.profile).Some?)
  {
    BoundIffBinds(db, i, now, BoundCycle(db, i, now));
    BoundIffBinds(db, i, now, i.cycle);
  }

  /** What one finalizing transaction writes: the profile and the intent. */
  ghost predicate Finalized(db: Db, op: nat, now: int, next: Db)
    requires ValidIntent(db, op)
  {
    var i := db.operations[op].intent.value;
    var p := db.profiles[i.profile];
    |next.operations| == |db.operations| && |next.profiles| == |db.profiles| && next.operations[op].intent.Some? &&
    var j := next.operations[op].intent.value;
    next == db.(operations := db.operations[op := db.operations[op].(intent := Some(j))],
                profiles := db.profiles[i.profile := next.profiles[i.profile]]) &&
    if CanBind(db, i, now) then
      (forall d: nat :: Binds(db, i, now, d) <==> j == i.(state := Completed, error := None, cycle := d)) &&
      next.profiles[i.profile] == p.(generation := i.target, enabled := true, lifecycle := Enabled, pendingAction := false)
    else
      j == i.(state := Installed, error := Some(RebindRequired)) &&
      next.profiles[i.profile] == p.(enabled := false, lifecycle := Pending, pendingAction := false)
  }

  /** A live intent whose row is at the expected or the target generation completes
      against exactly the cycle that binds it; with no such cycle it stays
      installed, waits for one and keeps its own, and the profile is disabled. */
  lemma FinalizedIff(db: Db, op: nat, now: int)
    requires KeysSound(db) && ValidIntent(db, op) && Live(db.operations[op].intent.value)
    requires Expects(db.profiles[db.operations[op].intent.value.profile], db.operations[op].intent.value)
    ensures Finalized(db, op, now, Finalize(db, op, now))
  {
    var i := db.operations[op].intent.value;
    if CanBind(db, i, now) {
      var b: nat :| Binds(db, i, now, b);
      BoundIffBinds(db, i, now, b);
      forall d: nat ensures Binds(db, i, now, d) <==> d == b {
        BoundIffBinds(db, i, now, d);
      }
    } else {
      UnboundKeepsCycle(db, i, now);
    }
  }

  /** A row at a third generation fails the intent and disables the profile. */
  lemma ConflictFails(db: Db, op: nat, now: int)
    requires ValidIntent(db, op) && Live(db.operations[op].intent.value)
    requires !Expects(db.profiles[db.operations[op].intent.value.profile], db.operations[op].intent.value)
    ensures var i := db.operations[op].intent.value;
            var next := Finalize(db, op, now);
            |next.operations| == |db.operations| && |next.profiles| == |db.profiles| &&
            next.operations[op].intent.Some? && next.operations[op].intent.value.state == Failed &&
            next.operations[op].intent.value.error == Some(DatabaseConflict) &&
            next.profiles[i.profile] == db.profiles[i.profile].(enabled := false, lifecycle := Pending, pendingAction := false)
  {
  }

  /** Failing an intent disables its profile and keeps the code of the first
      failure; a completed intent and its profile are left alone. */
  lemma MarkedIff(db: Db, op: nat, code: IntentError)
    requires ValidIntent(db, op)
    ensures var i := db.operations[op].intent.value;
            var p := db.profiles[i.profile];
            var j := if i.state in {Prepared, Installed} then i.(state := Failed, error := Some(code)) else i;
            MarkFailed(db, op, code) ==
            if i.state == Completed then db
            else db.(operations := db.operations[op := db.operations[op].(intent := Some(j))],
                     profiles := db.profiles[i.profile := p.(enabled := false, lifecycle := Pending, pendingAction := false)])
  {
    assert db.operations == db.operations[op := db.operations[op]];
  }
}
