/** Crash-safe installation of a profile secret: a database intent, a file
    compare-and-swap outside any transaction, and a finalizing transaction. */
module Import {
  import opened Tables
  import opened Rows
  import opened Ledger
  import opened SecretFile

  datatype ImportRequest = ImportRequest(
    name: string,
    expected: Option<nat>,
    target: nat,
    display: Option<string>,
    share: Option<int>)

  datatype Refusal =
    | InvalidExpectedGeneration
    | InvalidTargetGeneration
    | CycleUnavailable
    | CycleUnsafeForImport
    | InvalidOperation
    | InvalidAllocation
    | InvalidDisplayName
    | AllocationExceedsBudget
    | NameConflict
    | ProfileAlreadyExists
    | RotationMetadataNotAllowed
    | ProfileNotFound
    | ProfileRetired
    | GenerationConflict
    | AllocationMissing
    | IntentInProgress

  datatype Preparation = Rejected(reason: Refusal) | Drains(profile: nat) | Ready(profile: nat)

  predicate CycleCurrent(k: Cycle, now: int) {
    k.lifecycle == ActiveCycle && k.start <= now < k.end
  }

  predicate CycleSafe(k: Cycle, now: int) {
    CycleCurrent(k, now) && TrafficSafe(k)
  }

  predicate Live(i: Intent) {
    i.state == Prepared || i.state == Installed
  }

  predicate LiveFor(o: Operation, p: nat) {
    o.intent.Some? && o.intent.value.profile == p && Live(o.intent.value)
  }

  predicate HasLiveIntent(db: Db, p: nat) {
    exists o | o in db.operations :: LiveFor(o, p)
  }

  predicate FailedCreate(o: Operation, p: nat) {
    o.intent.Some? && o.intent.value.profile == p && o.intent.value.created && o.intent.value.target == 1 &&
    o.intent.value.state == Failed
  }

  function FindProfile(profiles: seq<Profile>, provider: string, name: string): (found: Option<nat>)
    ensures found.Some? ==> found.value < |profiles| && profiles[found.value].provider == provider &&
                            profiles[found.value].name == name
    ensures found.None? ==> forall p | p in profiles :: !(p.provider == provider && p.name == name)
  {
    if profiles == [] then None
    else
      var last := |profiles| - 1;
      if profiles[last].provider == provider && profiles[last].name == name then Some(last)
      else FindProfile(profiles[..last], provider, name)
  }

  function Quarantined(p: Profile): Profile {
    p.(enabled := false, lifecycle := Pending, pendingAction := false)
  }

  function Quarantine(db: Db, p: nat): Db
    requires p < |db.profiles|
  {
    db.(profiles := db.profiles[p := Quarantined(db.profiles[p])])
  }

  function RevokeProfile(db: Db, p: nat): Db {
    db.(reservations := seq(|db.reservations|, i requires 0 <= i < |db.reservations| =>
          if db.reservations[i].profile == p then RevokeRow(db.reservations[i]) else db.reservations[i]))
  }

  function NewIntent(q: ImportRequest, p: nat, c: nat): Intent {
    Intent(p, c, q.expected, q.target, q.expected.None?, Prepared, None)
  }

  function WithIntent(db: Db, op: nat, i: Intent): Db
    requires op < |db.operations|
  {
    db.(operations := db.operations[op := db.operations[op].(intent := Some(i))])
  }

  // ---- prepare -------------------------------------------------------------

  function CreateRefusal(db: Db, c: nat, q: ImportRequest, found: Option<nat>): Option<Refusal>
    requires c < |db.cycles| && (found.Some? ==> found.value < |db.profiles|)
  {
    if q.share.None? || q.share.value <= 0 then Some(InvalidAllocation)
    else if q.display.None? || q.display.value == "" || |q.display.value| > 200 then Some(InvalidDisplayName)
    else if found.None? then
      if Sum(db.allocations, AllocatedBytes(c)) + db.cycles[c].unmanaged + q.share.value > db.cycles[c].operational
      then Some(AllocationExceedsBudget)
      else if NameTaken(db, q.name) then Some(NameConflict)
      else None
    else
      var p := db.profiles[found.value];
      var allocation := FindAllocation(db.allocations, c, found.value);
      if p.generation != 0 || p.enabled || p.lifecycle != Pending || p.pendingAction || p.resource ||
         p.displayName != q.display.value ||
         allocation.None? || db.allocations[allocation.value].bytes != q.share.value ||
         !(exists o | o in db.operations :: FailedCreate(o, found.value))
      then Some(ProfileAlreadyExists)
      else None
  }

  function RotateRefusal(db: Db, c: nat, q: ImportRequest, found: Option<nat>): Option<Refusal>
    requires q.expected.Some? && (found.Some? ==> found.value < |db.profiles|)
  {
    if q.display.Some? || q.share.Some? then Some(RotationMetadataNotAllowed)
    else if found.None? then Some(ProfileNotFound)
    else if db.profiles[found.value].lifecycle == Retired then Some(ProfileRetired)
    else if db.profiles[found.value].generation != q.expected.value then Some(GenerationConflict)
    else if FindAllocation(db.allocations, c, found.value).None? then Some(AllocationMissing)
    else None
  }

  function RequestRefusal(q: ImportRequest): Option<Refusal> {
    if q.expected.Some? && !(1 <= q.expected.value < MAX_GENERATION) then Some(InvalidExpectedGeneration)
    else if q.target != (if q.expected.None? then 1 else q.expected.value + 1) then Some(InvalidTargetGeneration)
    else None
  }

  /** The refusals that come before any write. */
  function Refuses(db: Db, op: nat, actor: string, q: ImportRequest, now: int): Option<Refusal> {
    var covering := CoveringCycles(db.cycles, WEBSHARE, now);
    if RequestRefusal(q).Some? then RequestRefusal(q)
    else if |covering| != 1 then Some(CycleUnavailable)
    else
      assert covering[0] in covering;
      if !CycleSafe(db.cycles[covering[0]], now) then Some(CycleUnsafeForImport)
      else if op >= |db.operations| || db.operations[op].actor != actor || db.operations[op].state != Started ||
              db.operations[op].intent.Some?
      then Some(InvalidOperation)
      else
        var found := FindProfile(db.profiles, WEBSHARE, q.name);
        if q.expected.None? then CreateRefusal(db, covering[0], q, found)
        else RotateRefusal(db, covering[0], q, found)
  }

  /** One transaction. A profile with unsettled reservations is quarantined and
      drained instead of receiving an intent. */
  function Prepare(db: Db, op: nat, actor: string, q: ImportRequest, now: int): (Db, Preparation) {
    var refusal := Refuses(db, op, actor, q, now);
    if refusal.Some? then (db, Rejected(refusal.value))
    else
      var covering := CoveringCycles(db.cycles, WEBSHARE, now);
      assert covering[0] in covering;
      var c := covering[0];
      var found := FindProfile(db.profiles, WEBSHARE, q.name);
      if found.None? then
        var p := |db.profiles|;
        var row := Profile(WEBSHARE, q.name, q.display.value, false, Pending, false, false, 0, 0);
        (WithIntent(db.(profiles := db.profiles + [row],
                        allocations := db.allocations + [Allocation(c, p, q.share.value)]),
                    op, NewIntent(q, p, c)),
         Ready(p))
      else
        var p := found.value;
        if q.expected.Some? && ProfileBusy(db, p) then (RevokeProfile(Quarantine(db, p), p), Drains(p))
        else if HasLiveIntent(db, p) then (db, Rejected(IntentInProgress))
        else (WithIntent(if q.expected.Some? then Quarantine(db, p) else db, op, NewIntent(q, p, c)), Ready(p))
  }

  // ---- finalize and fail -----------------------------------------------------

  /** The cycle the intent is finalized against: its own, or the one current and
      safe cycle in which the profile already has an allocation. */
  function BoundCycle(db: Db, i: Intent, now: int): (c: nat)
    requires i.cycle < |db.cycles|
    ensures c < |db.cycles|
  {
    var covering := CoveringCycles(db.cycles, WEBSHARE, now);
    if CycleCurrent(db.cycles[i.cycle], now) || |covering| != 1 then i.cycle
    else
      assert covering[0] in covering;
      if CycleSafe(db.cycles[covering[0]], now) && FindAllocation(db.allocations, covering[0], i.profile).Some?
      then covering[0] else i.cycle
  }

  function ExpectedGeneration(i: Intent): nat {
    if i.expected.Some? then i.expected.value else 0
  }

  predicate ValidIntent(db: Db, op: nat) {
    op < |db.operations| && db.operations[op].intent.Some? &&
    db.operations[op].intent.value.profile < |db.profiles| && db.operations[op].intent.value.cycle < |db.cycles|
  }

  function Finalize(db: Db, op: nat, now: int): Db
    requires ValidIntent(db, op)
  {
    var i := db.operations[op].intent.value;
    var p := db.profiles[i.profile];
    if !Live(i) then db
    else
      var c := BoundCycle(db, i, now);
      var bound := i.(state := Installed, error := None, cycle := c);
      if p.generation != ExpectedGeneration(i) && p.generation != i.target
      then WithIntent(Quarantine(db, i.profile), op, bound.(state := Failed, error := Some(DatabaseConflict)))
      else if !CycleSafe(db.cycles[c], now) || FindAllocation(db.allocations, c, i.profile).None?
      then WithIntent(Quarantine(db, i.profile), op, bound.(error := Some(RebindRequired)))
      else WithIntent(
          db.(profiles := db.profiles[i.profile :=
                p.(generation := i.target, enabled := true, lifecycle := Enabled, pendingAction := false)]),
          op, bound.(state := Completed))
  }

  /** Quarantines and fails a live intent; the quarantine stands for an intent
      that already failed, and rolls back for one that completed. */
  function MarkFailed(db: Db, op: nat, code: IntentError): Db
    requires ValidIntent(db, op)
  {
    var i := db.operations[op].intent.value;
    if Live(i) then WithIntent(Quarantine(db, i.profile), op, i.(state := Failed, error := Some(code)))
    else if i.state == Failed then Quarantine(db, i.profile)
    else db
  }
}
