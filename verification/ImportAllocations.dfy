/** Allocation changes on old reads, mixed with secret installation: an import
    may add the row, drain the profile or finish between the read and the write. */
module ImportAllocations {
  import opened Tables
  import opened Rows
  import opened Ledger
  import opened LedgerProofs
  import opened Import
  import opened ImportSystem
  import opened ImportProofs
  import Allocations

  datatype MixedEvent = Whole(e: Event) | Write(p: nat, bytes: int, before: AllocationRead)

  function MixedStep(s: System, e: MixedEvent): System {
    match e
    case Whole(w) => Step(s, w)
    case Write(p, bytes, before) => s.(db := ChangeAllocation(s.db, p, bytes, before))
  }

  function MixedRun(s: System, events: seq<MixedEvent>): System {
    if events == [] then s else MixedStep(MixedRun(s, events[..|events| - 1]), events[|events| - 1])
  }

  predicate CarefulAt(s: System, e: MixedEvent) {
    e.Write? ==> Allocations.Careful(s.db, e.p, e.bytes, e.before)
  }

  predicate OwnReadAt(s: System, e: MixedEvent) {
    e.Write? ==> Allocations.OwnRead(s.db, e.p, e.before)
  }

  // ---- the import protocol does not look at sizes --------------------------------

  lemma WriteTouchesAllocations(db: Db, p: nat, bytes: int, before: AllocationRead)
    ensures var next := ChangeAllocation(db, p, bytes, before); next == db.(allocations := next.allocations)
  {
  }

  lemma SizesKeepIntents(s: System, next: System)
    requires IntentsSound(s) && next == s.(db := s.db.(allocations := next.db.allocations))
    ensures IntentsSound(next)
  {
    forall op | 0 <= op < |next.db.operations| && next.db.operations[op].intent.Some?
      ensures IntentSound(next, op, next.db.operations[op].intent.value)
    {
      assert IntentSound(s, op, s.db.operations[op].intent.value);
    }
  }

  lemma SizesKeepProfiles(s: System, next: System)
    requires ProfilesSound(s) && next == s.(db := s.db.(allocations := next.db.allocations))
    ensures ProfilesSound(next)
  {
    forall p | 0 <= p < |next.db.profiles| ensures ProfileSound(next, p) {
      assert ProfileSound(s, p);
    }
  }

  lemma SizesKeepActors(s: System, next: System)
    requires ActorsSound(s) && next == s.(db := s.db.(allocations := next.db.allocations))
    ensures ActorsSound(next)
  {
    forall op | op in next.actors ensures ActorSound(next, op, next.actors[op]) {
      assert ActorSound(s, op, s.actors[op]);
    }
  }

  lemma SizesKeepReservations(db: Db, next: Db)
    requires ReservationsCurrent(db) && next == db.(allocations := next.allocations)
    ensures ReservationsCurrent(next)
  {
    forall i | 0 <= i < |next.reservations| && Unsettled(next.reservations[i]) && OwnProfile(next, next.reservations[i].profile)
      ensures 1 <= next.reservations[i].generation == next.profiles[next.reservations[i].profile].generation
    {
      assert OwnProfile(db, db.reservations[i].profile);
    }
  }

  lemma SizesKeepAgreed(s: System, next: System)
    requires Agreed(s) && next == s.(db := s.db.(allocations := next.db.allocations))
    ensures Agreed(next)
  {
    SizesKeepIntents(s, next);
    SizesKeepProfiles(s, next);
    SizesKeepActors(s, next);
    SizesKeepReservations(s.db, next.db);
  }

  lemma WriteIsCoherentIff(s: System, p: nat, bytes: int, before: AllocationRead)
    requires Coherent(s) && Allocations.OwnRead(s.db, p, before)
    ensures Coherent(s.(db := ChangeAllocation(s.db, p, bytes, before))) <==> Allocations.Careful(s.db, p, bytes, before)
  {
    WriteTouchesAllocations(s.db, p, bytes, before);
    SizesKeepAgreed(s, s.(db := ChangeAllocation(s.db, p, bytes, before)));
    Allocations.StaleAllocationReadIff(s.db, p, bytes, before);
  }

  lemma MixedStepIsCoherentIff(s: System, e: MixedEvent)
    requires Coherent(s) && OwnReadAt(s, e)
    ensures Coherent(MixedStep(s, e)) <==> CarefulAt(s, e)
  {
    match e
    case Whole(w) => StepKeepsCoherent(s, w);
    case Write(p, bytes, before) => WriteIsCoherentIff(s, p, bytes, before);
  }

  // ---- a read stays its profile's own ----------------------------------------------

  lemma PrepareKeepsKeys(db: Db, op: nat, actor: string, q: ImportRequest, now: int)
    ensures Allocations.KeysStay(db, Prepare(db, op, actor, q, now).0)
  {
  }

  lemma CommitKeepsAllocations(s: System, op: nat, now: int)
    ensures Settled(s, op, now).db.allocations == s.db.allocations
  {
  }

  lemma OperationKeepsAllocations(s: System, e: Event)
    requires e.BeginOperation? || e.FinishOperation?
    ensures Step(s, e).db.allocations == s.db.allocations
  {
  }

  lemma StepKeepsKeys(s: System, e: Event)
    ensures Allocations.KeysStay(s.db, Step(s, e).db)
  {
    match e
    case Traffic(t) => Allocations.ApplyKeepsKeys(s.db, t);
    case StartInstall(op, actor, q, now) => PrepareKeepsKeys(s.db, op, actor, q, now);
    case Commit(op, now) => CommitKeepsAllocations(s, op, now);
    case BeginOperation(_, _, _) => OperationKeepsAllocations(s, e);
    case FinishOperation(_, _) => OperationKeepsAllocations(s, e);
    case _ => FenceKeepsTables(s, e);
  }

  lemma WriteKeepsKeys(db: Db, p: nat, bytes: int, before: AllocationRead)
    ensures Allocations.KeysStay(db, ChangeAllocation(db, p, bytes, before))
  {
  }

  lemma MixedStepKeepsKeys(s: System, e: MixedEvent)
    ensures Allocations.KeysStay(s.db, MixedStep(s, e).db)
  {
    match e
    case Whole(w) => StepKeepsKeys(s, w);
    case Write(p, bytes, before) => WriteKeepsKeys(s.db, p, bytes, before);
  }

  lemma {:induction false} MixedRunKeepsKeys(s: System, events: seq<MixedEvent>)
    ensures Allocations.KeysStay(s.db, MixedRun(s, events).db)
  {
    if events != [] {
      var before := MixedRun(s, events[..|events| - 1]);
      MixedRunKeepsKeys(s, events[..|events| - 1]);
      MixedStepKeepsKeys(before, events[|events| - 1]);
      Allocations.KeysStayOn(s.db, before.db, MixedRun(s, events).db);
    }
  }

  /** A read made in a mixed run is still its profile's own row after any further
      run of imports, traffic and other writes. */
  lemma ReadStaysOwnUnderImports(s: System, events: seq<MixedEvent>, p: nat)
    ensures Allocations.OwnRead(MixedRun(s, events).db, p, ReadAllocation(s.db, p))
  {
    MixedRunKeepsKeys(s, events);
    Allocations.KeptRead(s.db, MixedRun(s, events).db, p);
  }

  // ---- every mixed run ---------------------------------------------------------------

  ghost predicate CoherentThroughout(start: System, events: seq<MixedEvent>) {
    forall i | 0 <= i <= |events| :: Coherent(MixedRun(start, events[..i]))
  }

  predicate CarefulThroughout(start: System, events: seq<MixedEvent>) {
    forall i | 0 <= i < |events| :: CarefulAt(MixedRun(start, events[..i]), events[i])
  }

  predicate OwnReads(start: System, events: seq<MixedEvent>) {
    forall i | 0 <= i < |events| :: OwnReadAt(MixedRun(start, events[..i]), events[i])
  }

  lemma OneMoreMixed(start: System, events: seq<MixedEvent>, i: nat)
    requires i < |events|
    ensures MixedRun(start, events[..i + 1]) == MixedStep(MixedRun(start, events[..i]), events[i])
  {
    assert events[..i + 1][..i] == events[..i];
  }

  lemma NextIsCoherentIff(start: System, events: seq<MixedEvent>, i: nat)
    requires i < |events| && Coherent(MixedRun(start, events[..i])) && OwnReadAt(MixedRun(start, events[..i]), events[i])
    ensures Coherent(MixedRun(start, events[..i + 1])) <==> CarefulAt(MixedRun(start, events[..i]), events[i])
  {
    OneMoreMixed(start, events, i);
    MixedStepIsCoherentIff(MixedRun(start, events[..i]), events[i]);
  }

  lemma {:induction false} CarefulStaysCoherent(start: System, events: seq<MixedEvent>, i: nat)
    requires Coherent(start) && OwnReads(start, events) && CarefulThroughout(start, events) && i <= |events|
    ensures Coherent(MixedRun(start, events[..i]))
  {
    if i > 0 {
      CarefulStaysCoherent(start, events, i - 1);
      NextIsCoherentIff(start, events, i - 1);
    }
  }

  /** In a run that mixes imports, crashes, recoveries, traffic and allocation
      changes on old reads, both stores stay coherent and every book of the ledger
      holds throughout exactly when every write fits at the time it is made. */
  lemma MixedRunsAreCoherentIff(start: System, events: seq<MixedEvent>)
    requires Coherent(start) && OwnReads(start, events)
    ensures CoherentThroughout(start, events) <==> CarefulThroughout(start, events)
  {
    if CarefulThroughout(start, events) {
      forall i | 0 <= i <= |events| ensures Coherent(MixedRun(start, events[..i])) {
        CarefulStaysCoherent(start, events, i);
      }
    }
    if CoherentThroughout(start, events) {
      forall i | 0 <= i < |events| ensures CarefulAt(MixedRun(start, events[..i]), events[i]) {
        assert Coherent(MixedRun(start, events[..i])) && Coherent(MixedRun(start, events[..i + 1]));
        NextIsCoherentIff(start, events, i);
      }
    }
  }
}
