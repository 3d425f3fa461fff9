/** An allocation change as the code makes it: what it read may be old by the
    time its transaction writes. */
module Allocations {
  import opened Tables
  import opened Rows
  import opened Ledger
  import opened LedgerProofs

  predicate Writes(db: Db, p: nat, bytes: int, before: AllocationRead) {
    !AllocationRefused(bytes, before) && p < |db.profiles| && before.row.Some? &&
    before.row.value < |db.allocations| &&
    var active := FirstActive(db.cycles, db.profiles[p].provider);
    active.Some? &&
    Sum(db.allocations, OtherAllocatedBytes(active.value, p)) + db.cycles[active.value].unmanaged + bytes
    <= db.cycles[active.value].operational
  }

  /** What a read keeps for ever: the row belongs to the profile. */
  predicate OwnRead(db: Db, p: nat, before: AllocationRead) {
    before.row.Some? ==> before.row.value < |db.allocations| && db.allocations[before.row.value].profile == p
  }

  /** The new size covers what the row has unsettled now, and either the row is
      the active cycle's or its own cycle has the room. */
  predicate WriteFits(db: Db, p: nat, bytes: int, before: AllocationRead)
    requires Linked(db) && Writes(db, p, bytes, before)
  {
    var c := db.allocations[before.row.value].cycle;
    Sum(db.reservations, ProfileActiveBytes(c, p)) <= bytes &&
    (FirstActive(db.cycles, db.profiles[p].provider) == Some(c) ||
     Sum(db.allocations, OtherAllocatedBytes(c, p)) + db.cycles[c].unmanaged + bytes <= db.cycles[c].operational)
  }

  predicate Careful(db: Db, p: nat, bytes: int, before: AllocationRead) {
    Linked(db) && Writes(db, p, bytes, before) ==> WriteFits(db, p, bytes, before)
  }

  lemma FitKeepsSound(db: Db, p: nat, bytes: int, before: AllocationRead)
    requires Sound(db) && OwnRead(db, p, before) && Writes(db, p, bytes, before) && WriteFits(db, p, bytes, before)
    ensures Sound(ChangeAllocation(db, p, bytes, before))
  {
    var next := ChangeAllocation(db, p, bytes, before);
    ChangedAllocationKeepsCapacity(db, before.row.value, bytes);
    forall j | 0 <= j < |next.allocations| ensures ProfileFits(next, next.allocations[j]) {
      assert ProfileFits(db, db.allocations[j]);
    }
    AllocationsKeepSound(db, next);
  }

  lemma SoundMeansFit(db: Db, p: nat, bytes: int, before: AllocationRead)
    requires AllocationKeys(db) && Linked(db) && OwnRead(db, p, before) && Writes(db, p, bytes, before)
    requires var next := ChangeAllocation(db, p, bytes, before);
             CapacitySound(next) && ProfilesFit(next)
    ensures WriteFits(db, p, bytes, before)
  {
    var row := before.row.value;
    var next := ChangeAllocation(db, p, bytes, before);
    assert ProfileFits(next, next.allocations[row]);
    AllocationSum(db.allocations, row, bytes);
  }

  /** A write on an old read keeps every book exactly when it fits what is there
      when it is made; what was read decides only whether it is attempted. */
  lemma StaleAllocationReadIff(db: Db, p: nat, bytes: int, before: AllocationRead)
    requires Sound(db) && OwnRead(db, p, before)
    ensures Sound(ChangeAllocation(db, p, bytes, before)) <==>
            (Writes(db, p, bytes, before) ==> WriteFits(db, p, bytes, before))
  {
    if Writes(db, p, bytes, before) {
      if WriteFits(db, p, bytes, before) {
        FitKeepsSound(db, p, bytes, before);
      } else if Sound(ChangeAllocation(db, p, bytes, before)) {
        SoundMeansFit(db, p, bytes, before);
      }
    }
  }

  // ---- runs in which changes are split --------------------------------------------

  datatype SplitEvent = Whole(e: LedgerEvent) | Write(p: nat, bytes: int, before: AllocationRead)

  function SplitStep(db: Db, e: SplitEvent): Db {
    match e
    case Whole(t) => Apply(db, t)
    case Write(p, bytes, before) => ChangeAllocation(db, p, bytes, before)
  }

  function SplitRun(db: Db, events: seq<SplitEvent>): Db {
    if events == [] then db else SplitStep(SplitRun(db, events[..|events| - 1]), events[|events| - 1])
  }

  predicate CarefulAt(db: Db, e: SplitEvent) {
    e.Write? ==> Careful(db, e.p, e.bytes, e.before)
  }

  predicate OwnReadAt(db: Db, e: SplitEvent) {
    e.Write? ==> OwnRead(db, e.p, e.before)
  }

  /** Allocation rows are only added, and keep their keys. */
  predicate KeysStay(db: Db, next: Db) {
    |db.allocations| <= |next.allocations| &&
    forall i | 0 <= i < |db.allocations| ::
      next.allocations[i].cycle == db.allocations[i].cycle && next.allocations[i].profile == db.allocations[i].profile
  }

  lemma ApplyKeepsKeys(db: Db, e: LedgerEvent)
    ensures KeysStay(db, Apply(db, e))
  {
  }

  lemma StepKeepsKeys(db: Db, e: SplitEvent)
    ensures KeysStay(db, SplitStep(db, e))
  {
    if e.Whole? {
      ApplyKeepsKeys(db, e.e);
    }
  }

  lemma KeysStayOn(a: Db, b: Db, c: Db)
    requires KeysStay(a, b) && KeysStay(b, c)
    ensures KeysStay(a, c)
  {
  }

  lemma {:induction false} RunKeepsKeys(db: Db, events: seq<SplitEvent>)
    ensures KeysStay(db, SplitRun(db, events))
  {
    if events != [] {
      var before := SplitRun(db, events[..|events| - 1]);
      RunKeepsKeys(db, events[..|events| - 1]);
      StepKeepsKeys(before, events[|events| - 1]);
      KeysStayOn(db, before, SplitRun(db, events));
    }
  }

  lemma KeptRead(db: Db, next: Db, p: nat)
    requires KeysStay(db, next)
    ensures OwnRead(next, p, ReadAllocation(db, p))
  {
  }

  /** A read made in a run is still its profile's own row after any further run. */
  lemma ReadStaysOwn(db: Db, events: seq<SplitEvent>, p: nat)
    ensures KeysStay(db, SplitRun(db, events)) && OwnRead(SplitRun(db, events), p, ReadAllocation(db, p))
  {
    RunKeepsKeys(db, events);
    KeptRead(db, SplitRun(db, events), p);
  }

  lemma SplitStepKeepsSoundIff(db: Db, e: SplitEvent)
    requires Sound(db) && OwnReadAt(db, e)
    ensures Sound(SplitStep(db, e)) <==> CarefulAt(db, e)
  {
    match e
    case Whole(t) => ApplyKeepsSound(db, t);
    case Write(p, bytes, before) => StaleAllocationReadIff(db, p, bytes, before);
  }

  predicate SoundThroughout(start: Db, events: seq<SplitEvent>) {
    forall i | 0 <= i <= |events| :: Sound(SplitRun(start, events[..i]))
  }

  predicate CarefulThroughout(start: Db, events: seq<SplitEvent>) {
    forall i | 0 <= i < |events| :: CarefulAt(SplitRun(start, events[..i]), events[i])
  }

  predicate OwnReads(start: Db, events: seq<SplitEvent>) {
    forall i | 0 <= i < |events| :: OwnReadAt(SplitRun(start, events[..i]), events[i])
  }

  lemma OneMore(start: Db, events: seq<SplitEvent>, i: nat)
    requires i < |events|
    ensures SplitRun(start, events[..i + 1]) == SplitStep(SplitRun(start, events[..i]), events[i])
  {
    assert events[..i + 1][..i] == events[..i];
  }

  lemma {:induction false} CarefulKeepsSound(start: Db, events: seq<SplitEvent>, i: nat)
    requires Sound(start) && OwnReads(start, events) && CarefulThroughout(start, events) && i <= |events|
    ensures Sound(SplitRun(start, events[..i]))
  {
    if i > 0 {
      CarefulKeepsSound(start, events, i - 1);
      OneMore(start, events, i - 1);
      SplitStepKeepsSoundIff(SplitRun(start, events[..i - 1]), events[i - 1]);
    }
  }

  /** However many allocation changes overlap with each other and with traffic,
      the ledger is sound throughout a run exactly when every write fits at the
      time it is made. */
  lemma SplitRunsAreSoundIff(start: Db, events: seq<SplitEvent>)
    requires Sound(start) && OwnReads(start, events)
    ensures SoundThroughout(start, events) <==> CarefulThroughout(start, events)
  {
    if CarefulThroughout(start, events) {
      forall i | 0 <= i <= |events| ensures Sound(SplitRun(start, events[..i])) {
        CarefulKeepsSound(start, events, i);
      }
    }
    if SoundThroughout(start, events) {
      forall i | 0 <= i < |events| ensures CarefulAt(SplitRun(start, events[..i]), events[i]) {
        OneMore(start, events, i);
        assert Sound(SplitRun(start, events[..i])) && Sound(SplitRun(start, events[..i + 1]));
        SplitStepKeepsSoundIff(SplitRun(start, events[..i]), events[i]);
      }
    }
  }

  // ---- two ways to lose a book ---------------------------------------------------------

  function ActiveCycleOf(start: int, state: CycleState, operational: nat): Cycle {
    Cycle(DECODO, start, start + 10, operational, 1000, 0, 0, false, state, false, true, Some(0), 0, 0)
  }

  function NamedProfile(name: string): Profile {
    Profile(DECODO, name, name, true, Enabled, false, true, 0, 1)
  }

  function Envelope(bytes: nat): Reservation {
    Reservation(Some(0), None, 0, 0, 0, bytes, 0, 0, false, 1, Active, false, 0, 0)
  }

  /** A busy read at 100 does not protect the envelope: the row was raised to 200
      since, reservations grew to 190, and a write of 120 is not below 100. */
  lemma BusyReadIsNotEnough()
    ensures exists db, before ::
              Sound(db) && OwnRead(db, 0, before) && before.busy && !AllocationRefused(120, before) &&
              !Sound(ChangeAllocation(db, 0, 120, before))
  {
    var db := BusyDb();
    var before := AllocationRead(Some(0), 100, 0, true);
    BusySample(db);
    StaleAllocationReadIff(db, 0, 120, before);
  }

  function BusyDb(): Db {
    Db([ActiveCycleOf(0, ActiveCycle, 500)], [NamedProfile("a")], [], [Allocation(0, 0, 200)], [Envelope(190)], [], [])
  }

  lemma BusySums(db: Db)
    requires db == BusyDb()
    ensures forall w: Reservation -> int :: Sum(db.reservations, w) == w(Envelope(190))
    ensures forall w: Allocation -> int :: Sum(db.allocations, w) == w(Allocation(0, 0, 200))
  {
    forall w: Reservation -> int ensures Sum(db.reservations, w) == w(Envelope(190)) {
      OneSum(Envelope(190), w);
    }
    forall w: Allocation -> int ensures Sum(db.allocations, w) == w(Allocation(0, 0, 200)) {
      OneSum(Allocation(0, 0, 200), w);
    }
  }

  lemma BusySampleIsLinked(db: Db)
    requires db == BusyDb()
    ensures Linked(db) && KeysSound(db) && AllocationKeys(db) && AttemptsSound(db)
  {
  }

  lemma BusySampleIsSound(db: Db)
    requires db == BusyDb()
    ensures Sound(db) && Sum(db.reservations, ProfileActiveBytes(0, 0)) == 190
  {
    BusySampleIsLinked(db);
    BusySums(db);
  }

  lemma BusySample(db: Db)
    requires db == BusyDb()
    ensures Sound(db) && Sum(db.reservations, ProfileActiveBytes(0, 0)) == 190
    ensures Writes(db, 0, 120, AllocationRead(Some(0), 100, 0, true))
  {
    BusySampleIsSound(db);
    OneSum(Allocation(0, 0, 200), OtherAllocatedBytes(0, 0));
  }

  /** A write may still go to the row of a cycle that closed since it was read:
      two rows of 50 fill a cycle of 100, and the active cycle has room for 400. */
  lemma ClosedCycleIsOverfilled()
    ensures exists db, before ::
              Sound(db) && OwnRead(db, 0, before) && !before.busy && !AllocationRefused(400, before) &&
              !Sound(ChangeAllocation(db, 0, 400, before))
  {
    var db := ClosedDb();
    var before := AllocationRead(Some(0), 50, 0, false);
    ClosedSample(db);
    StaleAllocationReadIff(db, 0, 400, before);
  }

  lemma ClosedSums(db: Db)
    requires db == ClosedDb()
    ensures forall w: Allocation -> int :: Sum(db.allocations, w) == w(Allocation(0, 0, 50)) + w(Allocation(0, 1, 50))
  {
    forall w: Allocation -> int
      ensures Sum(db.allocations, w) == w(Allocation(0, 0, 50)) + w(Allocation(0, 1, 50))
    {
      TwoSums(Allocation(0, 0, 50), Allocation(0, 1, 50), w);
    }
  }

  function ClosedDb(): Db {
    Db([ActiveCycleOf(0, ClosedCycle, 100), ActiveCycleOf(10, ActiveCycle, 1000)],
       [NamedProfile("a"), NamedProfile("b")], [], [Allocation(0, 0, 50), Allocation(0, 1, 50)], [], [], [])
  }

  lemma ClosedSampleCapacity(db: Db)
    requires db == ClosedDb()
    ensures CapacitySound(db) && ProfilesFit(db) && CyclesSound(db)
    ensures Sum(db.allocations, OtherAllocatedBytes(0, 0)) == 50 && Sum(db.allocations, OtherAllocatedBytes(1, 0)) == 0
  {
    ClosedSums(db);
  }

  lemma ClosedSample(db: Db)
    requires db == ClosedDb()
    ensures Sound(db) && FirstActive(db.cycles, DECODO) == Some(1)
    ensures Sum(db.allocations, OtherAllocatedBytes(0, 0)) == 50 && Sum(db.allocations, OtherAllocatedBytes(1, 0)) == 0
  {
    ClosedSampleCapacity(db);
    assert "a"[0] != "b"[0];
  }
}
