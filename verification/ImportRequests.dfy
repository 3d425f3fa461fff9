/** Which import requests get an intent, read off the rows, and what each writes. */
module ImportRequests {
  import opened Tables
  import opened Rows
  import opened Ledger
  import opened LedgerProofs
  import LedgerTheorems
  import opened SecretFile
  import opened Import
  import opened ImportOutcomes
  import Shares

  /** The one running and open Webshare cycle. */
  predicate Billing(db: Db, now: int, c: nat) {
    c < |db.cycles| && db.cycles[c].provider == WEBSHARE && Open(db.cycles[c], now)
  }

  predicate Asked(db: Db, op: nat, actor: string) {
    op < |db.operations| && db.operations[op].actor == actor && db.operations[op].state == Started &&
    db.operations[op].intent == None
  }

  predicate NextGeneration(q: ImportRequest) {
    match q.expected
    case None => q.target == 1
    case Some(e) => 1 <= e < MAX_GENERATION && q.target == e + 1
  }

  predicate Admits(db: Db, op: nat, actor: string, q: ImportRequest, now: int, c: nat) {
    Billing(db, now, c) && Asked(db, op, actor) && NextGeneration(q)
  }

  predicate Described(q: ImportRequest) {
    q.share.Some? && q.share.value > 0 && q.display.Some? && 0 < |q.display.value| <= 200
  }

  predicate Own(db: Db, name: string, p: nat) {
    p < |db.profiles| && db.profiles[p].provider == WEBSHARE && db.profiles[p].name == name
  }

  predicate LiveIntentOf(o: Operation, p: nat) {
    o.intent.Some? && o.intent.value.profile == p && o.intent.value.state in {Prepared, Installed}
  }

  predicate NoIntent(db: Db, p: nat) {
    forall o | o in db.operations :: !LiveIntentOf(o, p)
  }

  /** A new profile: nobody has its name, and its share fits the cycle. */
  predicate Creates(db: Db, op: nat, actor: string, q: ImportRequest, now: int, c: nat) {
    Admits(db, op, actor, q, now, c) && q.expected == None && Described(q) &&
    (forall p | p in db.profiles :: p.name != q.name) &&
    Shares.Total(db.allocations, Shares.Share(c)) + db.cycles[c].unmanaged + q.share.value <= db.cycles[c].operational
  }

  predicate FailedFirst(o: Operation, p: nat) {
    o.intent.Some? && o.intent.value.profile == p && o.intent.value.created && o.intent.value.target == 1 &&
    o.intent.value.state == Failed
  }

  /** The untouched row that a failed creation left, asked for in the same words. */
  predicate AdoptsRow(db: Db, op: nat, actor: string, q: ImportRequest, now: int, c: nat, p: nat) {
    Admits(db, op, actor, q, now, c) && q.expected == None && Described(q) && Own(db, q.name, p) &&
    var row := db.profiles[p];
    row.generation == 0 && !row.enabled && row.lifecycle == Pending && !row.pendingAction && !row.resource &&
    row.displayName == q.display.value &&
    (exists a | a in db.allocations :: a.cycle == c && a.profile == p && a.bytes == q.share.value) &&
    exists o | o in db.operations :: FailedFirst(o, p)
  }

  predicate Adopts(db: Db, op: nat, actor: string, q: ImportRequest, now: int, c: nat, p: nat) {
    AdoptsRow(db, op, actor, q, now, c, p) && NoIntent(db, p)
  }

  predicate Replaces(db: Db, op: nat, actor: string, q: ImportRequest, now: int, c: nat, p: nat) {
    Admits(db, op, actor, q, now, c) && q.expected.Some? && q.display == None && q.share == None && Own(db, q.name, p) &&
    db.profiles[p].lifecycle != Retired && db.profiles[p].generation == q.expected.value && HasShare(db, c, p)
  }

  predicate Rotates(db: Db, op: nat, actor: string, q: ImportRequest, now: int, c: nat, p: nat) {
    Replaces(db, op, actor, q, now, c, p) && !Shares.Carries(db, p) && NoIntent(db, p)
  }

  /** A rotation of a profile that still carries traffic drains it instead. */
  predicate DrainsFirst(db: Db, op: nat, actor: string, q: ImportRequest, now: int, c: nat, p: nat) {
    Replaces(db, op, actor, q, now, c, p) && Shares.Carries(db, p)
  }

  // ---- the lookups find these rows --------------------------------------------------

  lemma OwnIsFound(db: Db, name: string, p: nat)
    requires KeysSound(db)
    ensures FindProfile(db.profiles, WEBSHARE, name) == Some(p) <==> Own(db, name, p)
  {
    var found := FindProfile(db.profiles, WEBSHARE, name);
    if Own(db, name, p) {
      assert db.profiles[p] in db.profiles;
    }
  }

  lemma BillingIsCovering(db: Db, now: int, c: nat)
    requires KeysSound(db)
    ensures var covering := CoveringCycles(db.cycles, WEBSHARE, now);
            (|covering| == 1 && covering[0] == c && c < |db.cycles| && CycleSafe(db.cycles[c], now)) <==> Billing(db, now, c)
  {
    var covering := CoveringCycles(db.cycles, WEBSHARE, now);
    if Billing(db, now, c) {
      OneRunningCycle(db, now, c);
    }
    if |covering| == 1 {
      assert covering[0] in covering;
    }
  }

  lemma IntentIsLive(db: Db, p: nat)
    ensures HasLiveIntent(db, p) <==> !NoIntent(db, p)
    ensures ProfileBusy(db, p) <==> Shares.Carries(db, p)
  {
    assert forall o | o in db.operations :: LiveFor(o, p) <==> LiveIntentOf(o, p);
  }

  lemma SameShare(db: Db, c: nat, p: nat, bytes: int)
    requires AllocationKeys(db)
    ensures var found := FindAllocation(db.allocations, c, p);
            (found.Some? && db.allocations[found.value].bytes == bytes) <==>
            exists a | a in db.allocations :: a.cycle == c && a.profile == p && a.bytes == bytes
  {
    var found := FindAllocation(db.allocations, c, p);
    if found.Some? {
      assert db.allocations[found.value] in db.allocations;
      forall a | a in db.allocations && a.cycle == c && a.profile == p ensures a == db.allocations[found.value] {
        var j :| 0 <= j < |db.allocations| && db.allocations[j] == a;
      }
    }
  }

  // ---- no refusal ---------------------------------------------------------------------

  lemma AdmitsIff(db: Db, op: nat, actor: string, q: ImportRequest, now: int, c: nat)
    requires KeysSound(db)
    ensures var covering := CoveringCycles(db.cycles, WEBSHARE, now);
            Admits(db, op, actor, q, now, c) <==>
            RequestRefusal(q).None? && |covering| == 1 && covering[0] == c && c < |db.cycles| &&
            CycleSafe(db.cycles[c], now) &&
            !(op >= |db.operations| || db.operations[op].actor != actor || db.operations[op].state != Started ||
              db.operations[op].intent.Some?)
  {
    BillingIsCovering(db, now, c);
  }

  lemma CreateAllowedIff(db: Db, op: nat, actor: string, q: ImportRequest, now: int, c: nat)
    requires Sound(db) && Admits(db, op, actor, q, now, c) && q.expected == None
    requires FindProfile(db.profiles, WEBSHARE, q.name).None?
    ensures CreateRefusal(db, c, q, None).None? <==> Creates(db, op, actor, q, now, c)
  {
    Shares.TotalIs(db.allocations, c, 0);
  }

  lemma AdoptAllowedIff(db: Db, op: nat, actor: string, q: ImportRequest, now: int, c: nat, p: nat)
    requires Sound(db) && Admits(db, op, actor, q, now, c) && q.expected == None && Own(db, q.name, p)
    ensures CreateRefusal(db, c, q, Some(p)).None? <==> AdoptsRow(db, op, actor, q, now, c, p)
  {
    if q.share.Some? {
      SameShare(db, c, p, q.share.value);
    }
    assert forall o | o in db.operations :: FailedCreate(o, p) <==> FailedFirst(o, p);
  }

  lemma ReplaceAllowedIff(db: Db, op: nat, actor: string, q: ImportRequest, now: int, c: nat, p: nat)
    requires Sound(db) && Admits(db, op, actor, q, now, c) && q.expected.Some? && Own(db, q.name, p)
    ensures RotateRefusal(db, c, q, Some(p)).None? <==> Replaces(db, op, actor, q, now, c, p)
  {
    ShareIsFound(db, c, p);
  }

  // ---- the answer -----------------------------------------------------------------------

  ghost predicate ReadyAt(db: Db, op: nat, actor: string, q: ImportRequest, now: int, c: nat, p: nat) {
    (p == |db.profiles| && Creates(db, op, actor, q, now, c)) || Adopts(db, op, actor, q, now, c, p) ||
    Rotates(db, op, actor, q, now, c, p)
  }

  lemma AnsweredAt(db: Db, op: nat, actor: string, q: ImportRequest, now: int, c: nat, p: nat)
    requires Sound(db) && Admits(db, op, actor, q, now, c)
    ensures Prepare(db, op, actor, q, now).1 == Ready(p) <==> ReadyAt(db, op, actor, q, now, c, p)
    ensures Prepare(db, op, actor, q, now).1 == Drains(p) <==> DrainsFirst(db, op, actor, q, now, c, p)
  {
    AdmitsIff(db, op, actor, q, now, c);
    var found := FindProfile(db.profiles, WEBSHARE, q.name);
    OwnIsFound(db, q.name, p);
    if found.None? {
      NamedByNone(db, q.name);
      if q.expected == None {
        CreateAllowedIff(db, op, actor, q, now, c);
      }
    } else {
      OwnIsFound(db, q.name, found.value);
      FoundAnswersAt(db, op, actor, q, now, c, found.value);
      assert db.profiles[found.value] in db.profiles;
    }
  }

  lemma NamedByNone(db: Db, name: string)
    requires FindProfile(db.profiles, WEBSHARE, name).None?
    ensures forall p: nat :: !Own(db, name, p)
  {
    forall p: nat ensures !Own(db, name, p) {
      assert p < |db.profiles| ==> db.profiles[p] in db.profiles;
    }
  }

  lemma FoundAnswersAt(db: Db, op: nat, actor: string, q: ImportRequest, now: int, c: nat, p: nat)
    requires Sound(db) && Admits(db, op, actor, q, now, c) && Own(db, q.name, p)
    ensures Prepare(db, op, actor, q, now).1 == Ready(p) <==>
            Adopts(db, op, actor, q, now, c, p) || Rotates(db, op, actor, q, now, c, p)
    ensures Prepare(db, op, actor, q, now).1 == Drains(p) <==> DrainsFirst(db, op, actor, q, now, c, p)
    ensures var answer := Prepare(db, op, actor, q, now).1;
            answer.Rejected? || answer == Ready(p) || answer == Drains(p)
  {
    AdmitsIff(db, op, actor, q, now, c);
    OwnIsFound(db, q.name, p);
    IntentIsLive(db, p);
    if q.expected == None {
      AdoptAllowedIff(db, op, actor, q, now, c, p);
    } else {
      ReplaceAllowedIff(db, op, actor, q, now, c, p);
    }
  }

  lemma NotAdmitted(db: Db, op: nat, actor: string, q: ImportRequest, now: int)
    requires KeysSound(db) && forall c: nat :: !Admits(db, op, actor, q, now, c)
    ensures Prepare(db, op, actor, q, now).1.Rejected?
  {
    var covering := CoveringCycles(db.cycles, WEBSHARE, now);
    if |covering| == 1 {
      AdmitsIff(db, op, actor, q, now, covering[0]);
    }
  }

  /** An import gets an intent for a profile exactly when it creates it, adopts
      what a failed creation left, or rotates it while it carries no traffic; it
      drains it exactly when it would rotate one that does; and it is refused
      otherwise. */
  lemma PreparedIff(db: Db, op: nat, actor: string, q: ImportRequest, now: int, p: nat)
    requires Sound(db)
    ensures Prepare(db, op, actor, q, now).1 == Ready(p) <==> exists c: nat :: ReadyAt(db, op, actor, q, now, c, p)
    ensures Prepare(db, op, actor, q, now).1 == Drains(p) <==> exists c: nat :: DrainsFirst(db, op, actor, q, now, c, p)
  {
    if forall c: nat :: !Admits(db, op, actor, q, now, c) {
      NotAdmitted(db, op, actor, q, now);
    } else {
      var b: nat :| Admits(db, op, actor, q, now, b);
      AnsweredAt(db, op, actor, q, now, b, p);
      forall c: nat | Admits(db, op, actor, q, now, c) ensures c == b {
        BillingIsCovering(db, now, b);
        BillingIsCovering(db, now, c);
      }
    }
  }

  // ---- what it writes ---------------------------------------------------------------------

  function Fresh(q: ImportRequest, p: nat, c: nat): Intent {
    Intent(p, c, q.expected, q.target, q.expected == None, Prepared, None)
  }

  /** The rows around the new intent: a new profile with its share, the row as it
      was, or the row disabled. */
  predicate Wrote(db: Db, op: nat, q: ImportRequest, c: nat, p: nat, next: Db)
    requires op < |db.operations|
  {
    next.operations == db.operations[op := db.operations[op].(intent := Some(Fresh(q, p, c)))] &&
    next.cycles == db.cycles && next.reservations == db.reservations && next.attempts == db.attempts &&
    next.routes == db.routes &&
    if p == |db.profiles| && q.display.Some? && q.share.Some? && q.share.value >= 0 then
      next.profiles == db.profiles + [Profile(WEBSHARE, q.name, q.display.value, false, Pending, false, false, 0, 0)] &&
      next.allocations == db.allocations + [Allocation(c, p, q.share.value)]
    else
      p < |db.profiles| && next.allocations == db.allocations &&
      next.profiles == if q.expected == None then db.profiles
                       else db.profiles[p := db.profiles[p].(enabled := false, lifecycle := Pending, pendingAction := false)]
  }

  /** An intent names the billing cycle and asks for the next generation; a drained
      profile is disabled and each of its active reservations is marked; a refused
      request writes nothing. */
  lemma PreparedWrites(db: Db, op: nat, actor: string, q: ImportRequest, now: int, c: nat)
    requires Sound(db) && Billing(db, now, c)
    ensures var (next, answer) := Prepare(db, op, actor, q, now);
            match answer
            case Rejected(_) => next == db
            case Ready(p) => op < |db.operations| && Wrote(db, op, q, c, p, next)
            case Drains(p) =>
              p < |db.profiles| && |next.reservations| == |db.reservations| &&
              next == db.(profiles := db.profiles[p := db.profiles[p].(enabled := false, lifecycle := Pending,
                                                                       pendingAction := false)],
                          reservations := next.reservations) &&
              forall i | 0 <= i < |db.reservations| ::
                next.reservations[i] ==
                if db.reservations[i].profile == p && db.reservations[i].state == Active
                then db.reservations[i].(state := RevocationRequested, revocationRequested := true)
                else db.reservations[i]
  {
    BillingIsCovering(db, now, c);
  }
}
