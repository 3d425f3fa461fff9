/** One installation from its request to its outcome: what each step reaches. */
module ImportInstalls {
  import opened Tables
  import opened Rows
  import opened Ledger
  import opened LedgerProofs
  import opened SecretFile
  import opened Import
  import opened ImportSystem
  import opened ImportProofs
  import opened ImportOutcomes
  import opened ImportRequests

  predicate Room(file: map<string, nat>, name: string) {
    name in file || |file| < 256
  }

  predicate Settling(i: Intent) {
    i.state in {Prepared, Installed}
  }

  /** The intent's profile and what the file holds for it. */
  predicate Concerned(s: System, op: nat, i: Intent, name: string, held: nat) {
    IntentOf(s, op) == Some(i) && i.profile < |s.db.profiles| && i.cycle < |s.db.cycles| &&
    s.db.profiles[i.profile].name == name && held == if name in s.file then s.file[name] else 0
  }

  // ---- one step -----------------------------------------------------------------

  lemma SwapIsAdmitted(s: System, op: nat, i: Intent, name: string, held: nat)
    requires Coherent(s) && op in s.actors && s.actors[op] == Dispatching && Concerned(s, op, i, name, held)
    ensures Dispatched(s, op) == 0 && (MayInstall(s.file, name, i.target, i.expected) <==> Room(s.file, name))
  {
    assert ActorSound(s, op, Dispatching);
    assert IntentSound(s, op, i);
    AgreedGeneration(s, op, i, name, held);
  }

  lemma AgreedGeneration(s: System, op: nat, i: Intent, name: string, held: nat)
    requires Concerned(s, op, i, name, held) && IntentSound(s, op, i) && i.state == Prepared && Dispatched(s, op) == 0
    ensures held == (if i.expected.Some? then i.expected.value else 0) && i.target == held + 1
    ensures i.expected.Some? ==> 1 <= held < MAX_GENERATION
  {
  }

  predicate SwapsTo(s: System, op: nat, report: SwapReport, i: Intent, name: string, t: System) {
    var taken := report != LostBefore && Room(s.file, name);
    t.db == s.db && t.file == (if taken then s.file[name := i.target] else s.file) &&
    t.actors == s.actors[op := if taken && report == Clean then Finalizing else Recovering] &&
    t.dispatched == s.dispatched[op := 1]
  }

  lemma Swaps(s: System, op: nat, report: SwapReport, i: Intent, name: string, held: nat)
    requires op in s.actors && s.actors[op] == Dispatching && Concerned(s, op, i, name, held)
    requires Dispatched(s, op) == 0 && (MayInstall(s.file, name, i.target, i.expected) <==> Room(s.file, name))
    ensures SwapsTo(s, op, report, i, name, Step(s, CompareAndSwap(op, report)))
  {
    Answer(Send(s, op), op, i, report);
  }

  /** A dispatched replacement takes effect whenever it is not lost on the way and
      the file has room; what its report says decides only who goes on. */
  lemma SwapReaches(s: System, op: nat, report: SwapReport, i: Intent, name: string, held: nat)
    requires Coherent(s) && op in s.actors && s.actors[op] == Dispatching && Concerned(s, op, i, name, held)
    ensures SwapsTo(s, op, report, i, name, Step(s, CompareAndSwap(op, report)))
  {
    SwapIsAdmitted(s, op, i, name, held);
    Swaps(s, op, report, i, name, held);
  }

  lemma Reads(s: System, op: nat, readable: bool, i: Intent, name: string, held: nat)
    requires op in s.actors && Concerned(s, op, i, name, held)
    requires s.actors[op] == Recovering && readable && Settling(i) ==>
               Decide(s, op, true).actors[op] == if held == i.target then Finalizing else Failing(ResubmissionRequired)
    ensures ReadsTo(s, op, readable, i, held, Step(s, ReadSecret(op, readable)))
  {
  }

  predicate ReadsTo(s: System, op: nat, readable: bool, i: Intent, held: nat, t: System)
    requires op in s.actors
  {
    if s.actors[op] != Recovering then t == s
    else if !readable || !Settling(i) then t == s.(actors := s.actors - {op})
    else t == s.(actors := s.actors[op := if held == i.target then Finalizing else Failing(ResubmissionRequired)])
  }

  /** Recovery goes by the file alone, and does nothing if it cannot be read. */
  lemma ReadReaches(s: System, op: nat, readable: bool, i: Intent, name: string, held: nat)
    requires Coherent(s) && op in s.actors && Concerned(s, op, i, name, held)
    ensures ReadsTo(s, op, readable, i, held, Step(s, ReadSecret(op, readable)))
  {
    if s.actors[op] == Recovering && readable && Settling(i) {
      DecisionIsSound(s, op);
    }
    Reads(s, op, readable, i, name, held);
  }

  lemma CommitIsExpected(s: System, op: nat, i: Intent, name: string, held: nat)
    requires Coherent(s) && op in s.actors && Concerned(s, op, i, name, held)
    ensures ValidIntent(s.db, op)
    ensures s.actors[op].Finalizing? || s.actors[op].Failing? ==> Settling(i)
    ensures Settling(i) ==> Expects(s.db.profiles[i.profile], i)
  {
    assert ActorSound(s, op, s.actors[op]);
    assert IntentSound(s, op, i);
  }

  ghost predicate CommitsTo(s: System, op: nat, now: int, i: Intent, t: System)
    requires op in s.actors && ValidIntent(s.db, op) && s.db.operations[op].intent == Some(i)
  {
    match s.actors[op]
    case Finalizing => t == s.(db := t.db, actors := s.actors - {op}) && Finalized(s.db, op, now, t.db)
    case Failing(code) => t == s.(db := FailedWith(s.db, op, i, code), actors := s.actors - {op})
    case _ => t == s
  }

  function FailedWith(db: Db, op: nat, i: Intent, code: IntentError): Db
    requires op < |db.operations| && i.profile < |db.profiles|
  {
    db.(operations := db.operations[op := db.operations[op].(intent := Some(i.(state := Failed, error := Some(code))))],
        profiles := db.profiles[i.profile :=
                      db.profiles[i.profile].(enabled := false, lifecycle := Pending, pendingAction := false)])
  }

  lemma Commits(s: System, op: nat, now: int, i: Intent)
    requires op in s.actors && ValidIntent(s.db, op) && s.db.operations[op].intent == Some(i)
    requires s.actors[op].Finalizing? ==> Finalized(s.db, op, now, Finalize(s.db, op, now))
    requires s.actors[op].Failing? ==> Settling(i)
    ensures CommitsTo(s, op, now, i, Step(s, Commit(op, now)))
  {
  }

  /** The intent's last transaction: completed, waiting, or failed with its code,
      and the profile enabled in the first case alone. */
  lemma CommitReaches(s: System, op: nat, now: int, i: Intent, name: string, held: nat)
    requires Coherent(s) && op in s.actors && Concerned(s, op, i, name, held)
    ensures ValidIntent(s.db, op) && CommitsTo(s, op, now, i, Step(s, Commit(op, now)))
  {
    CommitIsExpected(s, op, i, name, held);
    if s.actors[op] == Finalizing {
      FinalizedIff(s.db, op, now);
    }
    Commits(s, op, now, i);
  }

  // ---- the whole ------------------------------------------------------------------

  lemma Starts(s: System, op: nat, actor: string, q: ImportRequest, now: int, p: nat)
    requires op !in s.actors && IntentOf(s, op).None? && Prepare(s.db, op, actor, q, now).1 == Ready(p)
    ensures Step(s, StartInstall(op, actor, q, now)) ==
            s.(db := Prepare(s.db, op, actor, q, now).0, actors := s.actors[op := Dispatching])
  {
  }

  lemma StartReaches(s: System, op: nat, actor: string, q: ImportRequest, now: int, c: nat, p: nat)
    requires Sound(s.db) && op !in s.actors && ReadyAt(s.db, op, actor, q, now, c, p)
    ensures StartsTo(s, op, q, now, c, p, Step(s, StartInstall(op, actor, q, now)))
  {
    PreparedIff(s.db, op, actor, q, now, p);
    PreparedWrites(s.db, op, actor, q, now, c);
    Starts(s, op, actor, q, now, p);
    StartIsConcerned(s, Step(s, StartInstall(op, actor, q, now)), op, q, now, actor, c, p);
  }

  /** An admitted request makes its caller the one that dispatches. */
  predicate StartsTo(s: System, op: nat, q: ImportRequest, now: int, c: nat, p: nat, t: System) {
    t == s.(db := t.db, actors := s.actors[op := Dispatching]) &&
    op < |s.db.operations| && Wrote(s.db, op, q, c, p, t.db) &&
    Concerned(t, op, Fresh(q, p, c), q.name, if q.name in s.file then s.file[q.name] else 0) &&
    t.db.cycles == s.db.cycles && Billing(t.db, now, c) && HasShare(t.db, c, p)
  }

  /** Asking again for what an operation already has an intent for starts its
      recovery, and nothing else does. */
  lemma RetryReaches(s: System, op: nat, actor: string, q: ImportRequest, now: int, i: Intent, name: string, held: nat)
    requires op < |s.db.operations| && Concerned(s, op, i, name, held)
    ensures var o := s.db.operations[op];
            var same := NextGeneration(q) && o.actor == actor && o.state == Started && name == q.name &&
                        i.expected == q.expected && i.target == q.target;
            Step(s, StartInstall(op, actor, q, now)) ==
            if op !in s.actors && same then s.(actors := s.actors[op := Recovering]) else s
  {
  }

  lemma StartIsConcerned(s: System, t: System, op: nat, q: ImportRequest, now: int, actor: string, c: nat, p: nat)
    requires ReadyAt(s.db, op, actor, q, now, c, p) && t == s.(db := t.db, actors := s.actors[op := Dispatching])
    requires op < |s.db.operations| && Wrote(s.db, op, q, c, p, t.db)
    ensures Concerned(t, op, Fresh(q, p, c), q.name, if q.name in s.file then s.file[q.name] else 0)
    ensures HasShare(t.db, c, p) && t.db.cycles == s.db.cycles
  {
    if p == |s.db.profiles| {
      assert t.db.allocations[|s.db.allocations|] == Allocation(c, p, q.share.value);
    }
  }

  predicate Decided(s: System, op: nat, i: Intent, name: string, taken: bool, t: System) {
    t.db == s.db && t.file == (if taken then s.file[name := i.target] else s.file) &&
    t.actors == s.actors[op := if taken then Finalizing else Failing(ResubmissionRequired)]
  }

  lemma SwapThenRead(s: System, op: nat, report: SwapReport, i: Intent, name: string, held: nat, sent: System, t: System)
    requires Concerned(s, op, i, name, held) && i.state == Prepared && i.target == held + 1
    requires SwapsTo(s, op, report, i, name, sent)
    requires ReadsTo(sent, op, true, i, if report != LostBefore && Room(s.file, name) then i.target else held, t)
    ensures Decided(s, op, i, name, report != LostBefore && Room(s.file, name), t)
  {
  }

  lemma SwapIsConcerned(s: System, op: nat, report: SwapReport, i: Intent, name: string, held: nat, sent: System)
    requires Concerned(s, op, i, name, held) && SwapsTo(s, op, report, i, name, sent)
    ensures Concerned(sent, op, i, name, if report != LostBefore && Room(s.file, name) then i.target else held)
  {
  }

  /** The swap and the reading after it: whoever goes on finds what was swapped. */
  lemma SwapAndRead(s: System, op: nat, report: SwapReport, i: Intent, name: string, held: nat)
    requires Coherent(s) && op in s.actors && s.actors[op] == Dispatching && Concerned(s, op, i, name, held)
    ensures Decided(s, op, i, name, report != LostBefore && Room(s.file, name),
                    Step(Step(s, CompareAndSwap(op, report)), ReadSecret(op, true)))
  {
    var sent := Step(s, CompareAndSwap(op, report));
    StepKeepsCoherent(s, CompareAndSwap(op, report));
    SwapReaches(s, op, report, i, name, held);
    SwapIsConcerned(s, op, report, i, name, held, sent);
    DispatchingIsBehind(s, op, i, name, held);
    ReadReaches(sent, op, true, i, name, if report != LostBefore && Room(s.file, name) then i.target else held);
    SwapThenRead(s, op, report, i, name, held, sent, Step(sent, ReadSecret(op, true)));
  }

  lemma DispatchingIsBehind(s: System, op: nat, i: Intent, name: string, held: nat)
    requires Coherent(s) && op in s.actors && s.actors[op] == Dispatching && Concerned(s, op, i, name, held)
    ensures i.state == Prepared && i.target == held + 1
  {
    assert ActorSound(s, op, Dispatching);
    assert IntentSound(s, op, i);
    AgreedGeneration(s, op, i, name, held);
  }

  lemma BindsOwnIff(db: Db, i: Intent, now: int, later: int)
    requires KeysSound(db) && Billing(db, now, i.cycle) && HasShare(db, i.cycle, i.profile)
    ensures forall d: nat :: Binds(db, i, later, d) <==> d == i.cycle && db.cycles[d].start <= later < db.cycles[d].end
  {
  }

  // ---- the outcome ------------------------------------------------------------------

  /** How an installation ends: completed and enabled if the replacement was taken
      and its cycle still runs, waiting if that has ended, and failed otherwise. */
  predicate EndsAs(q: ImportRequest, c: nat, p: nat, taken: bool, running: bool, j: Intent, row: Profile) {
    j == (if !taken then Fresh(q, p, c).(state := Failed, error := Some(ResubmissionRequired))
          else if running then Fresh(q, p, c).(state := Completed)
          else Fresh(q, p, c).(state := Installed, error := Some(RebindRequired))) &&
    row.name == q.name && row.enabled == (taken && running) &&
    (taken && running ==> row.generation == q.target && row.lifecycle == Enabled)
  }

  predicate Ends(t: System, op: nat, q: ImportRequest, c: nat, p: nat, taken: bool, running: bool) {
    op !in t.actors && IntentOf(t, op).Some? && p < |t.db.profiles| &&
    EndsAs(q, c, p, taken, running, IntentOf(t, op).value, t.db.profiles[p])
  }

  lemma CommitEnds(s: System, op: nat, q: ImportRequest, c: nat, p: nat, taken: bool, now: int, later: int, t: System)
    requires op in s.actors && s.actors[op] == if taken then Finalizing else Failing(ResubmissionRequired)
    requires KeysSound(s.db) && Billing(s.db, now, c) && HasShare(s.db, c, p)
    requires ValidIntent(s.db, op) && s.db.operations[op].intent == Some(Fresh(q, p, c)) && s.db.profiles[p].name == q.name
    requires CommitsTo(s, op, later, Fresh(q, p, c), t)
    ensures t.file == s.file && Ends(t, op, q, c, p, taken, s.db.cycles[c].start <= later < s.db.cycles[c].end)
  {
    BindsOwnIff(s.db, Fresh(q, p, c), now, later);
  }

  lemma DispatchEnds(s: System, op: nat, q: ImportRequest, now: int, report: SwapReport, later: int, c: nat, p: nat,
                     held: nat)
    requires Coherent(s) && op in s.actors && s.actors[op] == Dispatching
    requires Concerned(s, op, Fresh(q, p, c), q.name, held) && Billing(s.db, now, c) && HasShare(s.db, c, p)
    ensures var t := Step(Step(Step(s, CompareAndSwap(op, report)), ReadSecret(op, true)), Commit(op, later));
            var taken := report != LostBefore && Room(s.file, q.name);
            t.file == (if taken then s.file[q.name := q.target] else s.file) &&
            Ends(t, op, q, c, p, taken, s.db.cycles[c].start <= later < s.db.cycles[c].end)
  {
    var sent := Step(s, CompareAndSwap(op, report));
    var taken := report != LostBefore && Room(s.file, q.name);
    var read := Step(sent, ReadSecret(op, true));
    SwapAndRead(s, op, report, Fresh(q, p, c), q.name, held);
    StepKeepsCoherent(s, CompareAndSwap(op, report));
    StepKeepsCoherent(sent, ReadSecret(op, true));
    CommitReaches(read, op, later, Fresh(q, p, c), q.name, if taken then q.target else held);
    CommitEnds(read, op, q, c, p, taken, now, later, Step(read, Commit(op, later)));
  }

  function Undisturbed(s: System, op: nat, actor: string, q: ImportRequest, now: int, report: SwapReport, later: int)
    : System
  {
    Step(Step(Step(Step(s, StartInstall(op, actor, q, now)), CompareAndSwap(op, report)), ReadSecret(op, true)),
         Commit(op, later))
  }

  /** After any run, an admitted request that nobody disturbs is settled by its
      own steps: however the replacement reports, the file holds the new generation
      exactly if it took effect, and the intent and the profile say so. */
  lemma InstallDelivers(start: System, events: seq<Event>, op: nat, actor: string, q: ImportRequest, now: int,
                        report: SwapReport, later: int, c: nat, p: nat)
    requires Coherent(start) && op !in Trace(start, events).actors
    requires ReadyAt(Trace(start, events).db, op, actor, q, now, c, p)
    ensures var s := Trace(start, events);
            var t := Undisturbed(s, op, actor, q, now, report, later);
            var taken := report != LostBefore && Room(s.file, q.name);
            t.file == (if taken then s.file[q.name := q.target] else s.file) &&
            Ends(t, op, q, c, p, taken, s.db.cycles[c].start <= later < s.db.cycles[c].end)
  {
    TraceKeepsCoherent(start, events);
    DeliversFrom(Trace(start, events), op, actor, q, now, report, later, c, p);
  }

  lemma DeliversFrom(s: System, op: nat, actor: string, q: ImportRequest, now: int, report: SwapReport, later: int,
                     c: nat, p: nat)
    requires Coherent(s) && op !in s.actors && ReadyAt(s.db, op, actor, q, now, c, p)
    ensures var t := Undisturbed(s, op, actor, q, now, report, later);
            var taken := report != LostBefore && Room(s.file, q.name);
            t.file == (if taken then s.file[q.name := q.target] else s.file) &&
            Ends(t, op, q, c, p, taken, s.db.cycles[c].start <= later < s.db.cycles[c].end)
  {
    StepKeepsCoherent(s, StartInstall(op, actor, q, now));
    StartReaches(s, op, actor, q, now, c, p);
    DispatchEnds(Step(s, StartInstall(op, actor, q, now)), op, q, now, report, later, c, p,
                 if q.name in s.file then s.file[q.name] else 0);
  }
}
