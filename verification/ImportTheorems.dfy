/** What secret installation promises, over every run of operations, crashes,
    recoveries and ledger traffic from a coherent system. */
module ImportTheorems {
  import opened Tables
  import opened Rows
  import opened Ledger
  import opened LedgerProofs
  import LedgerTheorems
  import opened SecretFile
  import opened Import
  import opened ImportSystem
  import opened ImportProofs
  import opened ImportOutcomes

  // ---- the two generations -------------------------------------------------

  /** The file agrees with the row when no intent is live, and is ahead by at
      most one while one is; an enabled profile has no live intent. */
  lemma GenerationsAgree(start: System, events: seq<Event>, p: nat)
    requires Coherent(start) && OwnProfile(Trace(start, events).db, p)
    ensures var s := Trace(start, events);
            var row := s.db.profiles[p];
            var held := GenerationOf(s.file, row.name);
            (if HasLiveIntent(s.db, p) then !row.enabled && row.generation <= held <= row.generation + 1
             else held == row.generation)
  {
    TraceKeepsCoherent(start, events);
    var s := Trace(start, events);
    assert ProfileSound(s, p);
    if HasLiveIntent(s.db, p) {
      var op :| 0 <= op < |s.db.operations| && LiveFor(s.db.operations[op], p);
      assert IntentSound(s, op, s.db.operations[op].intent.value);
    }
  }

  /** Neither generation conflict can be recorded, nor is one about to be. */
  lemma ConflictsAreUnreachable(start: System, events: seq<Event>, op: nat)
    requires Coherent(start) && IntentOf(Trace(start, events), op).Some?
    ensures var s := Trace(start, events);
            var i := IntentOf(s, op).value;
            i.error != Some(SecretConflict) && i.error != Some(DatabaseConflict) &&
            (op in s.actors ==> s.actors[op] != Failing(SecretConflict)) &&
            OwnProfile(s.db, i.profile) &&
            (Live(i) ==> s.db.profiles[i.profile].generation == ExpectedGeneration(i))
  {
    TraceKeepsCoherent(start, events);
    var s := Trace(start, events);
    assert IntentSound(s, op, IntentOf(s, op).value);
    if op in s.actors {
      assert ActorSound(s, op, s.actors[op]);
    }
  }

  // ---- admission under the installed generation ------------------------------

  lemma ReservedUnderInstalledGeneration(start: System, events: seq<Event>, clock: Clock, q: ReserveRequest)
    requires Coherent(start) && q.provider == WEBSHARE && Reserve(Trace(start, events).db, clock, q).1.Ok?
    ensures var s := Trace(start, events);
            q.profile.Some? && OwnProfile(s.db, q.profile.value) && !HasLiveIntent(s.db, q.profile.value) &&
            s.db.profiles[q.profile.value].name == q.profileName &&
            q.generation == s.db.profiles[q.profile.value].generation == GenerationOf(s.file, q.profileName)
  {
    TraceKeepsCoherent(start, events);
    AdmittedIsInstalled(Trace(start, events), clock, q);
  }

  lemma AdmittedIsInstalled(s: System, clock: Clock, q: ReserveRequest)
    requires ProfilesSound(s) && q.provider == WEBSHARE && Reserve(s.db, clock, q).1.Ok?
    ensures q.profile.Some? && OwnProfile(s.db, q.profile.value) && !HasLiveIntent(s.db, q.profile.value) &&
            s.db.profiles[q.profile.value].name == q.profileName &&
            q.generation == s.db.profiles[q.profile.value].generation == GenerationOf(s.file, q.profileName)
  {
    assert Admission(s.db, clock, q).Ok?;
    assert ProfileSound(s, q.profile.value);
  }

  lemma AuthorizedUnderInstalledGeneration(
      start: System, events: seq<Event>, now: int, id: nat, estimate: int, maximum: Option<int>)
    requires Coherent(start) && Authorize(Trace(start, events).db, now, id, estimate, maximum).1.Granted?
    requires id < |Trace(start, events).db.reservations|
    requires OwnProfile(Trace(start, events).db, Trace(start, events).db.reservations[id].profile)
    ensures var s := Trace(start, events);
            var r := s.db.reservations[id];
            !HasLiveIntent(s.db, r.profile) && r.state == Active &&
            r.generation == GenerationOf(s.file, s.db.profiles[r.profile].name)
  {
    TraceKeepsCoherent(start, events);
    GrantedIsInstalled(Trace(start, events), now, id, estimate, maximum);
  }

  lemma GrantedIsInstalled(s: System, now: int, id: nat, estimate: int, maximum: Option<int>)
    requires ProfilesSound(s) && Authorize(s.db, now, id, estimate, maximum).1.Granted? && id < |s.db.reservations|
    requires OwnProfile(s.db, s.db.reservations[id].profile)
    ensures var r := s.db.reservations[id];
            !HasLiveIntent(s.db, r.profile) && r.state == Active &&
            r.generation == GenerationOf(s.file, s.db.profiles[r.profile].name)
  {
    assert AttemptDenial(s.db, now, id).None?;
    assert ProfileSound(s, s.db.reservations[id].profile);
  }

  /** Traffic that is still unsettled was admitted under the generation in force,
      so a rotation never outruns it. */
  lemma UnsettledTrafficIsCurrent(start: System, events: seq<Event>, id: nat)
    requires Coherent(start) && id < |Trace(start, events).db.reservations|
    requires Unsettled(Trace(start, events).db.reservations[id])
    requires OwnProfile(Trace(start, events).db, Trace(start, events).db.reservations[id].profile)
    ensures var s := Trace(start, events);
            var r := s.db.reservations[id];
            r.generation == s.db.profiles[r.profile].generation ==
            GenerationOf(s.file, s.db.profiles[r.profile].name) && !HasLiveIntent(s.db, r.profile)
  {
    TraceKeepsCoherent(start, events);
    var s := Trace(start, events);
    var p := s.db.reservations[id].profile;
    assert ProfileSound(s, p);
    if HasLiveIntent(s.db, p) {
      LiveMeansIdle(s, p);
    }
  }

  lemma LiveMeansIdle(s: System, p: nat)
    requires IntentsSound(s) && HasLiveIntent(s.db, p)
    ensures Idle(s.db, p)
  {
    var op :| 0 <= op < |s.db.operations| && LiveFor(s.db.operations[op], p);
    assert IntentSound(s, op, s.db.operations[op].intent.value);
  }

  /** The ledger's promises survive imports: the ceiling with its slack, allocations
      that fit every cycle, unsettled bytes that fit every allocation, and the
      latch of an exhausted cycle. */
  lemma LedgerHoldsUnderImports(start: System, events: seq<Event>, c: nat, j: nat)
    requires Coherent(start)
    requires c < |Trace(start, events).db.cycles| && j < |Trace(start, events).db.allocations|
    ensures var db := Trace(start, events).db;
            Sum(db.allocations, AllocatedBytes(c)) + db.cycles[c].unmanaged <= db.cycles[c].operational &&
            Sum(db.reservations, ProfileActiveBytes(db.allocations[j].cycle, db.allocations[j].profile))
              <= db.allocations[j].bytes &&
            (Exhausted(db.cycles[c]) ==> db.cycles[c].killSwitch) && LedgerTheorems.WithinSlack(db, c)
  {
    TraceKeepsCoherent(start, events);
    var db := Trace(start, events).db;
    LedgerTheorems.SoundIsWithinSlack(db, c);
    assert ProfileFits(db, db.allocations[j]) && CycleSound(db, c);
  }

  // ---- one operation over all its retries --------------------------------------

  /** How an intent may change: not at all once settled, and never its identity. */
  predicate IntentProgress(a: Option<Intent>, b: Option<Intent>) {
    a.Some? ==>
      b.Some? && (!Live(a.value) ==> b == a) &&
      b.value.profile == a.value.profile && b.value.expected == a.value.expected && b.value.target == a.value.target &&
      (a.value.state == Installed ==> b.value.state != Prepared)
  }

  predicate PastDispatch(s: System, op: nat) {
    IntentOf(s, op).Some? && (op in s.actors ==> s.actors[op] != Dispatching)
  }

  ghost predicate Progress(s: System, next: System, op: nat) {
    IntentProgress(IntentOf(s, op), IntentOf(next, op)) &&
    (PastDispatch(s, op) ==> PastDispatch(next, op) && Dispatched(next, op) == Dispatched(s, op))
  }

  lemma FinalizeProgress(s: System, op: nat, now: int, other: nat)
    requires ValidIntent(s.db, op) && op in s.actors
    ensures Progress(s, Unlock(s.(db := Finalize(s.db, op, now)), op), other)
  {
  }

  lemma FailProgress(s: System, op: nat, code: IntentError, other: nat)
    requires ValidIntent(s.db, op) && op in s.actors
    ensures Progress(s, Unlock(s.(db := MarkFailed(s.db, op, code)), op), other)
  {
  }

  lemma CommitProgress(s: System, op: nat, now: int, other: nat)
    ensures Progress(s, Settled(s, op, now), other)
  {
    if op in s.actors && ValidIntent(s.db, op) {
      match s.actors[op]
      case Finalizing => FinalizeProgress(s, op, now, other);
      case Failing(code) => FailProgress(s, op, code, other);
      case _ =>
    }
  }

  lemma PrepareProgress(db: Db, op: nat, actor: string, q: ImportRequest, now: int, other: nat)
    requires other < |db.operations| && db.operations[other].intent.Some?
    ensures var (next, outcome) := Prepare(db, op, actor, q, now);
            other < |next.operations| && next.operations[other].intent == db.operations[other].intent &&
            (outcome.Ready? ==> op != other)
  {
  }

  lemma InstallProgress(s: System, op: nat, actor: string, q: ImportRequest, now: int, other: nat)
    ensures Progress(s, Install(s, op, actor, q, now), other)
  {
    if IntentOf(s, other).Some? {
      PrepareProgress(s.db, op, actor, q, now, other);
    }
  }

  lemma SwapProgress(s: System, op: nat, report: SwapReport, other: nat)
    ensures Progress(s, Swap(s, op, report), other)
  {
  }

  lemma DecideProgress(s: System, op: nat, readable: bool, other: nat)
    ensures Progress(s, Decide(s, op, readable), other)
  {
    DecideKeepsOthers(s, op, readable);
  }

  lemma OperationProgress(s: System, e: Event, op: nat)
    requires e.BeginOperation? || e.FinishOperation?
    ensures Progress(s, Step(s, e), op)
  {
  }

  lemma FenceProgress(s: System, e: Event, op: nat)
    requires FenceEvent(e)
    ensures Progress(s, Step(s, e), op)
  {
    match e
    case CompareAndSwap(other, report) => SwapProgress(s, other, report, op);
    case ReadSecret(other, readable) => DecideProgress(s, other, readable, op);
    case _ =>
  }

  lemma StepProgress(s: System, e: Event, op: nat)
    requires Coherent(s)
    ensures Progress(s, Step(s, e), op)
  {
    if e.Traffic? {
      TrafficFrames(s.db, e.e);
    } else if e.Commit? {
      CommitProgress(s, e.op, e.now, op);
    } else if e.StartInstall? {
      InstallProgress(s, e.op, e.actor, e.q, e.now, op);
    } else if e.BeginOperation? || e.FinishOperation? {
      OperationProgress(s, e, op);
    } else {
      FenceProgress(s, e, op);
    }
  }

  /** Completed and failed are absorbing: whatever runs afterwards. */
  lemma {:induction false} SettledIntentIsFinal(s: System, events: seq<Event>, op: nat)
    requires Coherent(s) && IntentOf(s, op).Some? && !Live(IntentOf(s, op).value)
    ensures IntentOf(Trace(s, events), op) == IntentOf(s, op)
  {
    if events != [] {
      var before := events[..|events| - 1];
      SettledIntentIsFinal(s, before, op);
      TraceKeepsCoherent(s, before);
      StepProgress(Trace(s, before), events[|events| - 1], op);
    }
  }

  /** Once an operation's intent is written and its dispatcher has swapped or
      died, no retry and no recovery dispatches again. */
  lemma {:induction false} NeverDispatchedAgain(s: System, events: seq<Event>, op: nat)
    requires Coherent(s) && PastDispatch(s, op)
    ensures PastDispatch(Trace(s, events), op) && Dispatched(Trace(s, events), op) == Dispatched(s, op)
  {
    if events != [] {
      var before := events[..|events| - 1];
      NeverDispatchedAgain(s, before, op);
      TraceKeepsCoherent(s, before);
      StepProgress(Trace(s, before), events[|events| - 1], op);
    }
  }

  lemma AtMostOneDispatch(start: System, events: seq<Event>, op: nat)
    requires Coherent(start)
    ensures Dispatched(Trace(start, events), op) <= 1
  {
    TraceKeepsCoherent(start, events);
  }

  // ---- one operation per idempotency key -------------------------------------------

  predicate SameRequest(a: Operation, b: Operation) {
    a.actor == b.actor && a.key == b.key && a.metadata == b.metadata
  }

  predicate KeepsRequests(before: seq<Operation>, after: seq<Operation>) {
    |before| == |after| && forall op | 0 <= op < |before| :: SameRequest(before[op], after[op])
  }

  lemma {:induction false} FoundAgain(before: seq<Operation>, after: seq<Operation>, actor: string, key: string)
    requires KeepsRequests(before, after)
    ensures FindOperation(after, actor, key) == FindOperation(before, actor, key)
  {
    if before != [] {
      FoundAgain(before[..|before| - 1], after[..|after| - 1], actor, key);
    }
  }

  lemma PrepareKeepsRequests(db: Db, op: nat, actor: string, q: ImportRequest, now: int)
    ensures KeepsRequests(db.operations, Prepare(db, op, actor, q, now).0.operations)
  {
  }

  lemma FinalizeKeepsRequests(db: Db, op: nat, now: int)
    requires ValidIntent(db, op)
    ensures KeepsRequests(db.operations, Finalize(db, op, now).operations)
  {
  }

  lemma FailKeepsRequests(db: Db, op: nat, code: IntentError)
    requires ValidIntent(db, op)
    ensures KeepsRequests(db.operations, MarkFailed(db, op, code).operations)
  {
  }

  lemma SettledKeepsRequests(s: System, op: nat, now: int)
    ensures KeepsRequests(s.db.operations, Settled(s, op, now).db.operations)
  {
    if op in s.actors && ValidIntent(s.db, op) {
      match s.actors[op]
      case Finalizing => FinalizeKeepsRequests(s.db, op, now);
      case Failing(code) => FailKeepsRequests(s.db, op, code);
      case _ =>
    }
  }

  lemma FinishKeepsRequests(db: Db, op: nat, outcome: OperationState)
    ensures KeepsRequests(db.operations, Finish(db, op, outcome).operations)
  {
  }

  lemma TrafficKeepsOperations(db: Db, e: LedgerEvent)
    requires Sound(db)
    ensures Apply(db, e).operations == db.operations
  {
    TrafficFrames(db, e);
  }

  lemma StepKeepsRequests(s: System, e: Event)
    requires !e.BeginOperation? && !e.Traffic?
    ensures KeepsRequests(s.db.operations, Step(s, e).db.operations)
  {
    match e
    case StartInstall(op, actor, q, now) => PrepareKeepsRequests(s.db, op, actor, q, now);
    case Commit(op, now) => SettledKeepsRequests(s, op, now);
    case FinishOperation(op, outcome) => FinishKeepsRequests(s.db, op, outcome);
    case _ => FenceKeepsTables(s, e);
  }

  lemma BeginKeepsKey(db: Db, a: string, k: string, metadata: string, actor: string, key: string)
    requires FindOperation(db.operations, actor, key).Some?
    ensures var next := Begin(db, a, k, metadata).operations;
            db.operations <= next && FindOperation(next, actor, key) == FindOperation(db.operations, actor, key)
  {
    var next := Begin(db, a, k, metadata).operations;
    if next != db.operations {
      assert next[..|next| - 1] == db.operations;
      var op := FindOperation(db.operations, actor, key).value;
      assert db.operations[op] in db.operations;
    }
  }

  lemma StepKeepsKey(s: System, e: Event, actor: string, key: string)
    requires Sound(s.db) && FindOperation(s.db.operations, actor, key).Some?
    ensures FindOperation(Step(s, e).db.operations, actor, key) == FindOperation(s.db.operations, actor, key)
    ensures var op := FindOperation(s.db.operations, actor, key).value;
            op < |Step(s, e).db.operations| && SameRequest(s.db.operations[op], Step(s, e).db.operations[op])
  {
    if e.BeginOperation? {
      BeginKeepsKey(s.db, e.actor, e.key, e.metadata, actor, key);
    } else if e.Traffic? {
      TrafficKeepsOperations(s.db, e.e);
    } else {
      StepKeepsRequests(s, e);
      FoundAgain(s.db.operations, Step(s, e).db.operations, actor, key);
    }
  }

  lemma {:induction false} KeyStays(s: System, events: seq<Event>, actor: string, key: string)
    requires Coherent(s) && FindOperation(s.db.operations, actor, key).Some?
    ensures FindOperation(Trace(s, events).db.operations, actor, key) == FindOperation(s.db.operations, actor, key)
    ensures var op := FindOperation(s.db.operations, actor, key).value;
            op < |Trace(s, events).db.operations| && SameRequest(s.db.operations[op], Trace(s, events).db.operations[op])
  {
    if events != [] {
      KeyStays(s, events[..|events| - 1], actor, key);
      TraceKeepsCoherent(s, events[..|events| - 1]);
      StepKeepsKey(Trace(s, events[..|events| - 1]), events[|events| - 1], actor, key);
    }
  }

  /** An idempotency key names one operation for ever: whatever runs in between,
      beginning again writes nothing and answers with that operation, resumed
      while it is started and replayed once it is finished; a different request
      under the same key is refused while it is started. */
  lemma KeyNamesOneOperation(
      s: System, actor: string, key: string, metadata: string, events: seq<Event>, other: string)
    requires Coherent(s) && FindOperation(s.db.operations, actor, key).None?
    ensures var begun := s.(db := BeginOrResume(s.db, actor, key, metadata).0);
            var t := Trace(begun, events);
            var op := |s.db.operations|;
            op < |t.db.operations| &&
            BeginOrResume(t.db, actor, key, other) ==
              (t.db, if t.db.operations[op].state != Started then Replayed(op)
                     else if other != metadata then Mismatch else Resumed(op))
  {
    var begun := s.(db := BeginOrResume(s.db, actor, key, metadata).0);
    assert begun == Step(s, BeginOperation(actor, key, metadata));
    StepKeepsCoherent(s, BeginOperation(actor, key, metadata));
    KeyStays(begun, events, actor, key);
  }

  // ---- one recovery pass ---------------------------------------------------------

  /** What one undisturbed recovery leaves of the intent, decided by the file's
      generation and the billing cycles alone. */
  ghost predicate RecoveredAs(s: System, i: Intent, now: int, j: Intent)
    requires i.cycle < |s.db.cycles|
  {
    if !Live(i) then j == i
    else if GenerationOf(s.file, NameOf(s.db, i)) != i.target then
      j == i.(state := Failed, error := Some(ResubmissionRequired))
    else if CanBind(s.db, i, now) then
      forall d: nat :: Binds(s.db, i, now, d) <==> j == i.(state := Completed, error := None, cycle := d)
    else j == i.(state := Installed, error := Some(RebindRequired))
  }

  function Recovery(s: System, op: nat, now: int): System {
    Step(Step(Step(s, StartRecovery(op)), ReadSecret(op, true)), Commit(op, now))
  }

  ghost predicate RecoverySettles(s: System, op: nat, now: int) {
    var t := Recovery(s, op, now);
    op !in t.actors && t.file == s.file && IntentOf(s, op).Some? && IntentOf(t, op).Some? &&
    var i := IntentOf(s, op).value;
    var j := IntentOf(t, op).value;
    i.cycle < |s.db.cycles| && i.profile < |t.db.profiles| && RecoveredAs(s, i, now, j) &&
    (Live(i) ==>
       var row := t.db.profiles[i.profile];
       (row.enabled <==> j.state == Completed) && row.generation == if row.enabled then i.target else ExpectedGeneration(i))
  }

  /** Completed, failed, or installed with the profile disabled: which of them
      is settled by the file's generation and the cycle, never by the history. */
  lemma RecoveryPass(start: System, events: seq<Event>, op: nat, now: int)
    requires Coherent(start) && op !in Trace(start, events).actors && IntentOf(Trace(start, events), op).Some?
    ensures RecoverySettles(Trace(start, events), op, now)
  {
    TraceKeepsCoherent(start, events);
    RecoveryPassAgreed(Trace(start, events), op, now);
  }

  lemma RecoveryPassAgreed(s: System, op: nat, now: int)
    requires KeysSound(s.db) && IntentsSound(s) && FileKnown(s) && op !in s.actors && IntentOf(s, op).Some?
    ensures RecoverySettles(s, op, now)
  {
    var i := IntentOf(s, op).value;
    assert IntentSound(s, op, i);
    if Live(i) {
      LiveRecovery(s, op, now);
      if GenerationOf(s.file, NameOf(s.db, i)) == i.target {
        FinalizedIff(s.db, op, now);
      }
    } else {
      SettledRecovery(s, op, now);
    }
  }

  lemma SettledRecovery(s: System, op: nat, now: int)
    requires op !in s.actors && IntentOf(s, op).Some? && !Live(IntentOf(s, op).value)
    ensures Recovery(s, op, now) == s
  {
    Relocked(s.actors, op, Recovering, Recovering);
  }

  lemma Relocked(actors: map<nat, Actor>, op: nat, a: Actor, b: Actor)
    requires op !in actors
    ensures actors[op := a] - {op} == actors && actors[op := a][op := b] - {op} == actors
  {
  }

  lemma LiveRecovery(s: System, op: nat, now: int)
    requires IntentsSound(s) && FileKnown(s) && op !in s.actors && IntentOf(s, op).Some? && Live(IntentOf(s, op).value)
    ensures var i := IntentOf(s, op).value;
            ValidIntent(s.db, op) &&
            Recovery(s, op, now).actors == s.actors && Recovery(s, op, now).file == s.file &&
            Recovery(s, op, now).db ==
            if GenerationOf(s.file, NameOf(s.db, i)) == i.target then Finalize(s.db, op, now)
            else MarkFailed(s.db, op, ResubmissionRequired)
  {
    var i := IntentOf(s, op).value;
    assert IntentSound(s, op, i);
    var locked := Lock(s, op, Recovering);
    RecoveringIsSound(s, op);
    DecisionIsSound(locked, op);
    DecidedRecovery(s, op, Decide(locked, op, true).actors[op]);
    Relocked(s.actors, op, Recovering, Decide(locked, op, true).actors[op]);
  }

  lemma DecidedRecovery(s: System, op: nat, a: Actor)
    requires IntentOf(s, op).Some? && Live(IntentOf(s, op).value)
    requires Decide(Lock(s, op, Recovering), op, true).actors[op] == a
    ensures Decide(Lock(s, op, Recovering), op, true) == s.(actors := s.actors[op := Recovering][op := a])
  {
  }

  lemma RecoveringIsSound(s: System, op: nat)
    requires IntentsSound(s)
    ensures IntentsSound(Lock(s, op, Recovering))
  {
    var next := Lock(s, op, Recovering);
    forall o | 0 <= o < |next.db.operations| && next.db.operations[o].intent.Some?
      ensures IntentSound(next, o, next.db.operations[o].intent.value)
    {
      assert IntentSound(s, o, s.db.operations[o].intent.value);
    }
  }

  // ---- conservation -----------------------------------------------------------------

  function CompletedFor(p: nat): Operation -> int {
    (o: Operation) =>
      if o.intent.Some? && o.intent.value.profile == p && o.intent.value.state == Completed then 1 else 0
  }

  function Completions(s: System, p: nat): int {
    Sum(s.db.operations, CompletedFor(p))
  }

  function Generation(s: System, p: nat): int {
    if p < |s.db.profiles| then s.db.profiles[p].generation else 0
  }

  /** The generation and the number of completions move together. */
  predicate Counts(s: System, next: System, p: nat) {
    p < |s.db.profiles| <= |next.db.profiles| && next.db.profiles[p].provider == s.db.profiles[p].provider &&
    Generation(next, p) - Generation(s, p) == Completions(next, p) - Completions(s, p)
  }

  lemma WrittenCounts(s: System, next: System, op: nat, i: Intent, p: nat)
    requires op < |s.db.operations| && p < |s.db.profiles| <= |next.db.profiles|
    requires next.db.operations == WithIntent(s.db, op, i).operations
    ensures Completions(next, p) - Completions(s, p) ==
            CompletedFor(p)(next.db.operations[op]) - CompletedFor(p)(s.db.operations[op])
  {
    SumUpdate(s.db.operations, op, next.db.operations[op], CompletedFor(p));
  }

  lemma FinalizeCounts(s: System, op: nat, now: int, p: nat)
    requires IntentsSound(s) && p < |s.db.profiles| && ValidIntent(s.db, op)
    ensures Counts(s, s.(db := Finalize(s.db, op, now)), p)
  {
    var i := s.db.operations[op].intent.value;
    var next := s.(db := Finalize(s.db, op, now));
    assert IntentSound(s, op, i);
    if Live(i) {
      WrittenCounts(s, next, op, next.db.operations[op].intent.value, p);
    }
  }

  lemma FailCounts(s: System, op: nat, code: IntentError, p: nat)
    requires p < |s.db.profiles| && ValidIntent(s.db, op)
    ensures Counts(s, s.(db := MarkFailed(s.db, op, code)), p)
  {
    var next := s.(db := MarkFailed(s.db, op, code));
    if Live(s.db.operations[op].intent.value) {
      WrittenCounts(s, next, op, next.db.operations[op].intent.value, p);
    }
  }

  lemma CommitCounts(s: System, op: nat, now: int, p: nat)
    requires IntentsSound(s) && p < |s.db.profiles|
    ensures Counts(s, Settled(s, op, now), p)
  {
    if op in s.actors && ValidIntent(s.db, op) {
      match s.actors[op]
      case Finalizing => FinalizeCounts(s, op, now, p);
      case Failing(code) => FailCounts(s, op, code, p);
      case _ =>
    }
  }

  lemma PrepareCounts(s: System, op: nat, actor: string, q: ImportRequest, now: int, p: nat)
    requires p < |s.db.profiles|
    ensures Counts(s, s.(db := Prepare(s.db, op, actor, q, now).0), p)
  {
    var next := s.(db := Prepare(s.db, op, actor, q, now).0);
    if next.db.operations != s.db.operations {
      WrittenCounts(s, next, op, next.db.operations[op].intent.value, p);
    }
  }

  lemma InstallCounts(s: System, op: nat, actor: string, q: ImportRequest, now: int, p: nat)
    requires p < |s.db.profiles|
    ensures Counts(s, Install(s, op, actor, q, now), p)
  {
    PrepareCounts(s, op, actor, q, now, p);
  }

  lemma TrafficCounts(s: System, e: LedgerEvent, p: nat)
    requires Sound(s.db) && OwnProfile(s.db, p)
    ensures Counts(s, s.(db := Apply(s.db, e)), p)
  {
    TrafficFrames(s.db, e);
  }

  lemma OperationCounts(s: System, e: Event, p: nat)
    requires e.BeginOperation? || e.FinishOperation?
    ensures Completions(Step(s, e), p) == Completions(s, p) && Step(s, e).db.profiles == s.db.profiles
  {
    if e.BeginOperation? {
      SumAppend(s.db.operations, Operation(e.actor, e.key, e.metadata, Started, None), CompletedFor(p));
    } else if e.op < |s.db.operations| {
      SumUpdate(s.db.operations, e.op, s.db.operations[e.op].(state := e.outcome), CompletedFor(p));
    }
  }

  lemma FenceCounts(s: System, e: Event, p: nat)
    requires p < |s.db.profiles| && FenceEvent(e)
    ensures Counts(s, Step(s, e), p)
  {
    FenceKeepsTables(s, e);
  }

  lemma StepCounts(s: System, e: Event, p: nat)
    requires Sound(s.db) && IntentsSound(s) && OwnProfile(s.db, p)
    ensures Counts(s, Step(s, e), p)
  {
    if e.Traffic? {
      TrafficCounts(s, e.e, p);
    } else if e.Commit? {
      CommitCounts(s, e.op, e.now, p);
    } else if e.StartInstall? {
      InstallCounts(s, e.op, e.actor, e.q, e.now, p);
    } else if e.BeginOperation? || e.FinishOperation? {
      OperationCounts(s, e, p);
    } else {
      FenceCounts(s, e, p);
    }
  }

  /** A profile's generation moves by exactly one for each operation that
      completes, however often operations crash, retry and recover. */
  lemma {:induction false} GenerationCountsCompletions(s: System, events: seq<Event>, p: nat)
    requires Coherent(s) && OwnProfile(s.db, p)
    ensures OwnProfile(Trace(s, events).db, p)
    ensures Generation(Trace(s, events), p) - Generation(s, p) == Completions(Trace(s, events), p) - Completions(s, p)
  {
    if events != [] {
      var before := events[..|events| - 1];
      GenerationCountsCompletions(s, before, p);
      TraceKeepsCoherent(s, before);
      StepCounts(Trace(s, before), events[|events| - 1], p);
    }
  }

  /** The empty system starts every such run. */
  lemma EmptySystemIsCoherent()
    ensures Coherent(System(Db([], [], [], [], [], [], []), map[], map[], map[]))
  {
  }
}
