/** The closed system of the ledger's tables, the secret file and the processes
    that install, recover and crash. */
module ImportSystem {
  import opened Tables
  import opened Rows
  import opened Ledger
  import opened LedgerProofs
  import opened SecretFile
  import opened Import

  /** What the holder of an operation's session lock will do next. */
  datatype Actor = Dispatching | Recovering | Finalizing | Failing(code: IntentError)

  /** How a dispatched compare-and-swap reports: cleanly, or with an I/O failure
      before or after the replacement took effect. */
  datatype SwapReport = Clean | LostBefore | LostAfter

  /** `actors` holds the locked operations; `dispatched` counts, per operation,
      the compare-and-swaps sent to the file. */
  datatype System = System(db: Db, file: map<string, nat>, actors: map<nat, Actor>, dispatched: map<nat, nat>)

  datatype Event =
    | Traffic(e: LedgerEvent)
    | BeginOperation(actor: string, key: string, metadata: string)
    | FinishOperation(op: nat, outcome: OperationState)
    | StartInstall(op: nat, actor: string, q: ImportRequest, now: int)
    | StartRecovery(op: nat)
    | CompareAndSwap(op: nat, report: SwapReport)
    | ReadSecret(op: nat, readable: bool)
    | Commit(op: nat, now: int)
    | Crash(op: nat)

  function Dispatched(s: System, op: nat): nat {
    if op in s.dispatched then s.dispatched[op] else 0
  }

  function IntentOf(s: System, op: nat): Option<Intent> {
    if op < |s.db.operations| then s.db.operations[op].intent else None
  }

  function NameOf(db: Db, i: Intent): string {
    if i.profile < |db.profiles| then db.profiles[i.profile].name else ""
  }

  predicate Matches(db: Db, o: Operation, actor: string, q: ImportRequest) {
    o.actor == actor && o.state == Started && o.intent.Some? &&
    NameOf(db, o.intent.value) == q.name && o.intent.value.expected == q.expected && o.intent.value.target == q.target
  }

  function Unlock(s: System, op: nat): System {
    s.(actors := s.actors - {op})
  }

  function Lock(s: System, op: nat, a: Actor): System {
    s.(actors := s.actors[op := a])
  }

  function FindOperation(operations: seq<Operation>, actor: string, key: string): (found: Option<nat>)
    ensures found.Some? ==> found.value < |operations| && operations[found.value].actor == actor &&
                            operations[found.value].key == key
    ensures found.None? ==> forall o | o in operations :: !(o.actor == actor && o.key == key)
  {
    if operations == [] then None
    else
      var last := |operations| - 1;
      if operations[last].actor == actor && operations[last].key == key then Some(last)
      else FindOperation(operations[..last], actor, key)
  }

  /** How `_begin_or_resume` answers: with a new operation, the started one of the
      same request, the recorded outcome of a finished one, or a refusal. */
  datatype BeginAnswer = Created(op: nat) | Resumed(op: nat) | Replayed(op: nat) | Mismatch

  /** The idempotency key finds its operation again; otherwise it makes one. */
  function BeginOrResume(db: Db, actor: string, key: string, metadata: string): (Db, BeginAnswer) {
    var found := FindOperation(db.operations, actor, key);
    if found.None?
    then (db.(operations := db.operations + [Operation(actor, key, metadata, Started, None)]), Created(|db.operations|))
    else
      var o := db.operations[found.value];
      (db, if o.state != Started then Replayed(found.value)
           else if o.metadata != metadata then Mismatch
           else Resumed(found.value))
  }

  function Begin(db: Db, actor: string, key: string, metadata: string): Db {
    BeginOrResume(db, actor, key, metadata).0
  }

  function Finish(db: Db, op: nat, outcome: OperationState): Db {
    if op < |db.operations| then db.(operations := db.operations[op := db.operations[op].(state := outcome)]) else db
  }

  /** A retried operation whose intent exists is recovered, never re-dispatched. */
  function Install(s: System, op: nat, actor: string, q: ImportRequest, now: int): System {
    if op in s.actors || RequestRefusal(q).Some? then s
    else if IntentOf(s, op).Some? then
      if Matches(s.db, s.db.operations[op], actor, q) then Lock(s, op, Recovering) else s
    else
      var (db, outcome) := Prepare(s.db, op, actor, q, now);
      if outcome.Ready? then Lock(s.(db := db), op, Dispatching) else s.(db := db)
  }

  function Replace(s: System, op: nat, i: Intent, report: SwapReport): System {
    var swapped := InstallGeneration(s.file, NameOf(s.db, i), i.target, i.expected);
    if swapped.None? || report == LostBefore then Lock(s, op, Recovering)
    else Lock(s.(file := swapped.value), op, if report == Clean then Finalizing else Recovering)
  }

  function Send(s: System, op: nat): System {
    s.(dispatched := s.dispatched[op := Dispatched(s, op) + 1])
  }

  function Swap(s: System, op: nat, report: SwapReport): System {
    if op !in s.actors || s.actors[op] != Dispatching || IntentOf(s, op).None? then s
    else Replace(Send(s, op), op, IntentOf(s, op).value, report)
  }

  /** Recovery decides from the intent and the file's generation alone. */
  function Decide(s: System, op: nat, readable: bool): System {
    if op !in s.actors || s.actors[op] != Recovering then s
    else if IntentOf(s, op).None? || !Live(IntentOf(s, op).value) || !readable then Unlock(s, op)
    else
      var i := IntentOf(s, op).value;
      var name := NameOf(s.db, i);
      if name in s.file && s.file[name] == i.target then Lock(s, op, Finalizing)
      else if i.state == Prepared && (name !in s.file || Some(s.file[name]) == i.expected)
      then Lock(s, op, Failing(ResubmissionRequired))
      else Lock(s, op, Failing(SecretConflict))
  }

  function Settled(s: System, op: nat, now: int): System {
    if op !in s.actors || !ValidIntent(s.db, op) then s
    else match s.actors[op]
      case Finalizing => Unlock(s.(db := Finalize(s.db, op, now)), op)
      case Failing(code) => Unlock(s.(db := MarkFailed(s.db, op, code)), op)
      case _ => s
  }

  function Step(s: System, e: Event): System {
    match e
    case Traffic(t) => s.(db := Apply(s.db, t))
    case BeginOperation(actor, key, metadata) => s.(db := Begin(s.db, actor, key, metadata))
    case FinishOperation(op, outcome) => s.(db := Finish(s.db, op, outcome))
    case StartInstall(op, actor, q, now) => Install(s, op, actor, q, now)
    case StartRecovery(op) => if op in s.actors || IntentOf(s, op).None? then s else Lock(s, op, Recovering)
    case CompareAndSwap(op, report) => Swap(s, op, report)
    case ReadSecret(op, readable) => Decide(s, op, readable)
    case Commit(op, now) => Settled(s, op, now)
    case Crash(op) => Unlock(s, op)
  }

  function Trace(s: System, events: seq<Event>): System {
    if events == [] then s else Step(Trace(s, events[..|events| - 1]), events[|events| - 1])
  }

  // ---- the invariant -----------------------------------------------------------

  ghost predicate OwnProfile(db: Db, p: nat) {
    p < |db.profiles| && db.profiles[p].provider == WEBSHARE
  }

  ghost predicate Idle(db: Db, p: nat) {
    forall i | 0 <= i < |db.reservations| && db.reservations[i].profile == p :: !Unsettled(db.reservations[i])
  }

  /** The two generations around a live intent. */
  ghost predicate LiveSound(s: System, op: nat, i: Intent)
    requires i.profile < |s.db.profiles|
  {
    var p := s.db.profiles[i.profile];
    var held := GenerationOf(s.file, p.name);
    p.generation == ExpectedGeneration(i) && !p.enabled && Idle(s.db, i.profile) &&
    (held == i.target || held == ExpectedGeneration(i)) &&
    (i.state == Installed ==> held == i.target) &&
    (Dispatched(s, op) == 0 ==> held == ExpectedGeneration(i))
  }

  ghost predicate IntentSound(s: System, op: nat, i: Intent) {
    OwnProfile(s.db, i.profile) && i.cycle < |s.db.cycles| &&
    i.target == ExpectedGeneration(i) + 1 && (i.expected.Some? ==> 1 <= i.expected.value < MAX_GENERATION) &&
    i.created == i.expected.None? &&
    i.error != Some(SecretConflict) && i.error != Some(DatabaseConflict) &&
    (Live(i) ==> LiveSound(s, op, i))
  }

  ghost predicate IntentsSound(s: System) {
    forall op | 0 <= op < |s.db.operations| && s.db.operations[op].intent.Some? ::
      IntentSound(s, op, s.db.operations[op].intent.value)
  }

  ghost predicate OneLiveIntent(db: Db) {
    forall a, b, p | 0 <= a < b < |db.operations| ::
      !(LiveFor(db.operations[a], p) && LiveFor(db.operations[b], p))
  }

  ghost predicate ProfileSound(s: System, p: nat)
    requires p < |s.db.profiles|
  {
    var row := s.db.profiles[p];
    row.provider == WEBSHARE ==>
      (row.enabled ==> !HasLiveIntent(s.db, p) && row.lifecycle == Enabled && 1 <= row.generation) &&
      (!HasLiveIntent(s.db, p) ==> GenerationOf(s.file, row.name) == row.generation)
  }

  ghost predicate ProfilesSound(s: System) {
    forall p | 0 <= p < |s.db.profiles| :: ProfileSound(s, p)
  }

  ghost predicate ReservationsCurrent(db: Db) {
    forall i | 0 <= i < |db.reservations| && Unsettled(db.reservations[i]) && OwnProfile(db, db.reservations[i].profile) ::
      1 <= db.reservations[i].generation == db.profiles[db.reservations[i].profile].generation
  }

  ghost predicate FileKnown(s: System) {
    forall name | name in s.file :: 1 <= s.file[name] && FindProfile(s.db.profiles, WEBSHARE, name).Some?
  }

  ghost predicate ActorSound(s: System, op: nat, a: Actor) {
    IntentOf(s, op).Some? &&
    var i := IntentOf(s, op).value;
    match a
    case Dispatching => i.state == Prepared && Dispatched(s, op) == 0
    case Recovering => true
    case Finalizing => Live(i) && GenerationOf(s.file, NameOf(s.db, i)) == i.target
    case Failing(code) => i.state == Prepared && code == ResubmissionRequired &&
                          GenerationOf(s.file, NameOf(s.db, i)) == ExpectedGeneration(i)
  }

  ghost predicate ActorsSound(s: System) {
    (forall op | op in s.actors :: ActorSound(s, op, s.actors[op])) &&
    (forall op | op in s.dispatched :: s.dispatched[op] <= 1 && IntentOf(s, op).Some?)
  }

  /** The two stores and the lock holders agree. */
  ghost predicate Agreed(s: System) {
    IntentsSound(s) && OneLiveIntent(s.db) && ProfilesSound(s) && ReservationsCurrent(s.db) && FileKnown(s) &&
    ActorsSound(s)
  }

  ghost predicate Coherent(s: System) {
    Sound(s.db) && Agreed(s)
  }
}
