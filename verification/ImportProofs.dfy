/** Every step of the import system keeps the two stores coherent. */
module ImportProofs {
  import opened Tables
  import opened Rows
  import opened Ledger
  import opened LedgerProofs
  import opened SecretFile
  import opened Import
  import opened ImportSystem

  // ---- ledger traffic ------------------------------------------------------

  /** What ledger transactions leave alone, seen from the import protocol. */
  ghost predicate TrafficFrame(db: Db, next: Db) {
    next.operations == db.operations && |db.profiles| <= |next.profiles| && |db.cycles| <= |next.cycles| &&
    (forall p | 0 <= p < |db.profiles| ::
       next.profiles[p].name == db.profiles[p].name && next.profiles[p].provider == db.profiles[p].provider &&
       (db.profiles[p].provider == WEBSHARE ==> next.profiles[p] == db.profiles[p])) &&
    (forall p | |db.profiles| <= p < |next.profiles| :: next.profiles[p].provider != WEBSHARE) &&
    |db.reservations| <= |next.reservations| &&
    (forall i | 0 <= i < |db.reservations| :: RowStep(db.reservations[i], next.reservations[i])) &&
    (forall i | |db.reservations| <= i < |next.reservations| ::
       next.reservations[i].profile < |db.profiles| && db.profiles[next.reservations[i].profile].enabled &&
       db.profiles[next.reservations[i].profile].generation == next.reservations[i].generation)
  }

  lemma TrafficFrames(db: Db, e: LedgerEvent)
    requires Sound(db)
    ensures TrafficFrame(db, Apply(db, e))
  {
    ApplyKeepsSound(db, e);
    if e.ReserveTx? {
      ReserveFrames(db, e.clock, e.request);
    } else {
      OtherTrafficFrames(db, e);
    }
  }

  lemma ReserveFrames(db: Db, clock: Clock, q: ReserveRequest)
    requires Evolves(db, Reserve(db, clock, q).0)
    ensures TrafficFrame(db, Reserve(db, clock, q).0)
  {
  }

  lemma QuietFrames(db: Db, next: Db)
    requires Evolves(db, next) && |next.reservations| == |db.reservations|
    requires next.operations == db.operations && next.profiles == db.profiles
    ensures TrafficFrame(db, next)
  {
  }

  lemma RowsLeaveProfiles(db: Db, e: LedgerEvent)
    requires e.CloseTx? || e.StaleTx? || AttemptEvent(e)
    ensures var next := Apply(db, e);
            |next.reservations| == |db.reservations| && next.operations == db.operations && next.profiles == db.profiles
  {
  }

  lemma CyclesLeaveProfiles(db: Db, e: LedgerEvent)
    requires CycleEvent(e) || FlagEvent(e)
    ensures var next := Apply(db, e);
            |next.reservations| == |db.reservations| && next.operations == db.operations && next.profiles == db.profiles
  {
  }

  lemma ProfileFrames(db: Db, e: LedgerEvent)
    requires Evolves(db, Apply(db, e)) && (ProfileEvent(e) || WriteEvent(e))
    ensures TrafficFrame(db, Apply(db, e))
  {
  }

  lemma OtherTrafficFrames(db: Db, e: LedgerEvent)
    requires Evolves(db, Apply(db, e)) && !e.ReserveTx?
    ensures TrafficFrame(db, Apply(db, e))
  {
    if ProfileEvent(e) || WriteEvent(e) {
      ProfileFrames(db, e);
    } else {
      if CycleEvent(e) || FlagEvent(e) {
        CyclesLeaveProfiles(db, e);
      } else {
        RowsLeaveProfiles(db, e);
      }
      QuietFrames(db, Apply(db, e));
    }
  }

  lemma FoundProfile(db: Db, p: nat)
    requires KeysSound(db) && p < |db.profiles|
    ensures FindProfile(db.profiles, db.profiles[p].provider, db.profiles[p].name) == Some(p)
  {
    assert db.profiles[p] in db.profiles;
  }

  lemma StillKnown(db: Db, next: Db, name: string)
    requires KeysSound(next) && |db.profiles| <= |next.profiles|
    requires forall p | 0 <= p < |db.profiles| ::
               next.profiles[p].name == db.profiles[p].name && next.profiles[p].provider == db.profiles[p].provider
    requires FindProfile(db.profiles, WEBSHARE, name).Some?
    ensures FindProfile(next.profiles, WEBSHARE, name).Some?
  {
    FoundProfile(next, FindProfile(db.profiles, WEBSHARE, name).value);
  }

  lemma FileStaysKnown(s: System, next: System)
    requires FileKnown(s) && KeysSound(next.db) && next.file == s.file && |s.db.profiles| <= |next.db.profiles|
    requires forall p | 0 <= p < |s.db.profiles| ::
               next.db.profiles[p].name == s.db.profiles[p].name && next.db.profiles[p].provider == s.db.profiles[p].provider
    ensures FileKnown(next)
  {
    forall name | name in next.file ensures 1 <= next.file[name] && FindProfile(next.db.profiles, WEBSHARE, name).Some? {
      StillKnown(s.db, next.db, name);
    }
  }

  lemma IdleStays(db: Db, next: Db, p: nat)
    requires TrafficFrame(db, next) && Idle(db, p) && p < |db.profiles| && !db.profiles[p].enabled
    ensures Idle(next, p)
  {
    forall i | 0 <= i < |next.reservations| && next.reservations[i].profile == p ensures !Unsettled(next.reservations[i]) {
      if i < |db.reservations| {
        assert RowStep(db.reservations[i], next.reservations[i]);
      }
    }
  }

  lemma TrafficKeepsIntents(s: System, next: System)
    requires IntentsSound(s) && TrafficFrame(s.db, next.db) && next == s.(db := next.db)
    ensures IntentsSound(next)
  {
    forall op | 0 <= op < |next.db.operations| && next.db.operations[op].intent.Some?
      ensures IntentSound(next, op, next.db.operations[op].intent.value)
    {
      var i := s.db.operations[op].intent.value;
      assert IntentSound(s, op, i);
      if Live(i) {
        IdleStays(s.db, next.db, i.profile);
      }
    }
  }

  lemma TrafficKeepsProfiles(s: System, next: System)
    requires ProfilesSound(s) && TrafficFrame(s.db, next.db) && next == s.(db := next.db)
    ensures ProfilesSound(next)
  {
    forall p | 0 <= p < |next.db.profiles| ensures ProfileSound(next, p) {
      if p < |s.db.profiles| {
        assert ProfileSound(s, p);
      }
    }
  }

  lemma TrafficKeepsReservations(s: System, next: System)
    requires ReservationsCurrent(s.db) && ProfilesSound(s) && TrafficFrame(s.db, next.db)
    requires forall i | 0 <= i < |s.db.reservations| :: s.db.reservations[i].profile < |s.db.profiles|
    ensures ReservationsCurrent(next.db)
  {
    forall i | 0 <= i < |next.db.reservations| && Unsettled(next.db.reservations[i]) &&
               OwnProfile(next.db, next.db.reservations[i].profile)
      ensures 1 <= next.db.reservations[i].generation == next.db.profiles[next.db.reservations[i].profile].generation
    {
      var p := next.db.reservations[i].profile;
      if i < |s.db.reservations| {
        assert RowStep(s.db.reservations[i], next.db.reservations[i]);
        assert OwnProfile(s.db, p) && Unsettled(s.db.reservations[i]);
      } else {
        assert ProfileSound(s, p);
      }
    }
  }

  lemma TrafficKeepsCoherent(s: System, e: LedgerEvent)
    requires Coherent(s)
    ensures Coherent(Step(s, Traffic(e)))
  {
    var next := Step(s, Traffic(e));
    ApplyKeepsSound(s.db, e);
    TrafficFrames(s.db, e);
    TrafficKeepsIntents(s, next);
    TrafficKeepsProfiles(s, next);
    TrafficKeepsReservations(s, next);
    FileStaysKnown(s, next);
    TrafficKeepsActors(s, next);
  }

  lemma TrafficKeepsActors(s: System, next: System)
    requires ActorsSound(s) && IntentsSound(s) && TrafficFrame(s.db, next.db) && next == s.(db := next.db)
    ensures ActorsSound(next)
  {
    forall op | op in next.actors ensures ActorSound(next, op, next.actors[op]) {
      assert ActorSound(s, op, s.actors[op]);
      assert IntentSound(s, op, IntentOf(s, op).value);
    }
  }

  // ---- operations and locks --------------------------------------------------

  /** Operation rows may come and change state, but their intents stay. */
  ghost predicate SameIntents(db: Db, next: Db) {
    next == db.(operations := next.operations) && |db.operations| <= |next.operations| &&
    (forall op | 0 <= op < |db.operations| :: next.operations[op].intent == db.operations[op].intent) &&
    (forall op | |db.operations| <= op < |next.operations| :: next.operations[op].intent.None?)
  }

  lemma SameLiveIntents(db: Db, next: Db, p: nat)
    requires SameIntents(db, next)
    ensures HasLiveIntent(next, p) <==> HasLiveIntent(db, p)
  {
    if HasLiveIntent(db, p) {
      var op :| 0 <= op < |db.operations| && LiveFor(db.operations[op], p);
      assert next.operations[op] in next.operations && LiveFor(next.operations[op], p);
    }
    if HasLiveIntent(next, p) {
      var op :| 0 <= op < |next.operations| && LiveFor(next.operations[op], p);
      assert db.operations[op] in db.operations && LiveFor(db.operations[op], p);
    }
  }

  lemma OperationsKeepProfiles(s: System, next: System)
    requires ProfilesSound(s) && SameIntents(s.db, next.db) && next == s.(db := next.db)
    ensures ProfilesSound(next)
  {
    forall p | 0 <= p < |next.db.profiles| ensures ProfileSound(next, p) {
      assert ProfileSound(s, p);
      SameLiveIntents(s.db, next.db, p);
    }
  }

  lemma OperationsKeepIntents(s: System, next: System)
    requires IntentsSound(s) && SameIntents(s.db, next.db) && next == s.(db := next.db)
    ensures IntentsSound(next)
  {
    forall op | 0 <= op < |next.db.operations| && next.db.operations[op].intent.Some?
      ensures IntentSound(next, op, next.db.operations[op].intent.value)
    {
      assert IntentSound(s, op, s.db.operations[op].intent.value);
    }
  }

  lemma OperationsKeepUniqueness(db: Db, next: Db)
    requires OneLiveIntent(db) && SameIntents(db, next)
    ensures OneLiveIntent(next)
  {
    forall a, b, p | 0 <= a < b < |next.operations|
      ensures !(LiveFor(next.operations[a], p) && LiveFor(next.operations[b], p))
    {
      assert b < |db.operations| ==> !(LiveFor(db.operations[a], p) && LiveFor(db.operations[b], p));
    }
  }

  lemma OperationsKeepActors(s: System, next: System)
    requires ActorsSound(s) && SameIntents(s.db, next.db) && next == s.(db := next.db)
    ensures ActorsSound(next)
  {
    forall op | op in next.actors ensures ActorSound(next, op, next.actors[op]) {
      assert ActorSound(s, op, s.actors[op]);
    }
  }

  lemma OperationsKeepCoherent(s: System, next: System)
    requires Coherent(s) && SameIntents(s.db, next.db) && next == s.(db := next.db)
    ensures Coherent(next)
  {
    ProfilesKeepSound(s.db, next.db);
    OperationsKeepProfiles(s, next);
    OperationsKeepIntents(s, next);
    OperationsKeepUniqueness(s.db, next.db);
    OperationsKeepActors(s, next);
    FileStaysKnown(s, next);
  }

  lemma UnlockKeepsAgreed(s: System, op: nat)
    requires Agreed(s)
    ensures Agreed(Unlock(s, op))
  {
    OnlyActorsChange(s, Unlock(s, op));
  }

  lemma LockKeepsAgreed(s: System, op: nat, a: Actor)
    requires Agreed(s) && ActorSound(s, op, a)
    ensures Agreed(Lock(s, op, a))
  {
    OnlyActorsChange(s, Lock(s, op, a));
  }

  lemma OnlyActorsChange(s: System, next: System)
    requires Agreed(s) && next == s.(actors := next.actors)
    requires forall op | op in next.actors :: ActorSound(s, op, next.actors[op])
    ensures Agreed(next)
  {
    forall op | 0 <= op < |next.db.operations| && next.db.operations[op].intent.Some?
      ensures IntentSound(next, op, next.db.operations[op].intent.value)
    {
      assert IntentSound(s, op, s.db.operations[op].intent.value);
    }
    forall p | 0 <= p < |next.db.profiles| ensures ProfileSound(next, p) {
      assert ProfileSound(s, p);
    }
    forall op | op in next.actors ensures ActorSound(next, op, next.actors[op]) {
      assert ActorSound(s, op, next.actors[op]);
    }
  }

  // ---- writing an intent -------------------------------------------------------

  predicate OnlyLiveFor(db: Db, op: nat, p: nat) {
    forall o | 0 <= o < |db.operations| && o != op :: !LiveFor(db.operations[o], p)
  }

  /** Rewriting one intent and its profile's row, on an unlocked operation. */
  ghost predicate IntentMove(s: System, next: System, op: nat, row: Profile, i: Intent) {
    op < |s.db.operations| && op !in s.actors && OwnProfile(s.db, i.profile) &&
    (s.db.operations[op].intent.Some? ==> s.db.operations[op].intent.value.profile == i.profile) &&
    OnlyLiveFor(s.db, op, i.profile) &&
    next == s.(db := WithIntent(s.db.(profiles := s.db.profiles[i.profile := row]), op, i)) &&
    row.name == s.db.profiles[i.profile].name && row.provider == WEBSHARE &&
    (row.generation == s.db.profiles[i.profile].generation || Idle(s.db, i.profile)) &&
    (row.enabled ==> !Live(i) && row.lifecycle == Enabled && 1 <= row.generation) &&
    (!Live(i) ==> GenerationOf(s.file, row.name) == row.generation)
  }

  lemma MovedLiveIntents(s: System, next: System, op: nat, row: Profile, i: Intent, p: nat)
    requires IntentMove(s, next, op, row, i)
    ensures HasLiveIntent(next.db, p) <==> if p == i.profile then Live(i) else HasLiveIntent(s.db, p)
  {
    assert next.db.operations[op] in next.db.operations;
    if p != i.profile && HasLiveIntent(s.db, p) {
      var o :| 0 <= o < |s.db.operations| && LiveFor(s.db.operations[o], p);
      assert next.db.operations[o] in next.db.operations;
    }
    if HasLiveIntent(next.db, p) {
      var o :| 0 <= o < |next.db.operations| && LiveFor(next.db.operations[o], p);
      if o != op {
        assert s.db.operations[o] in s.db.operations && LiveFor(s.db.operations[o], p);
      }
    }
    if p == i.profile && Live(i) {
      assert LiveFor(next.db.operations[op], p);
    }
  }

  lemma MoveKeepsProfiles(s: System, next: System, op: nat, row: Profile, i: Intent)
    requires ProfilesSound(s) && IntentMove(s, next, op, row, i)
    ensures ProfilesSound(next)
  {
    forall p | 0 <= p < |next.db.profiles| ensures ProfileSound(next, p) {
      assert ProfileSound(s, p);
      MovedLiveIntents(s, next, op, row, i, p);
    }
  }

  lemma MoveKeepsIntents(s: System, next: System, op: nat, row: Profile, i: Intent)
    requires IntentsSound(s) && IntentMove(s, next, op, row, i) && IntentSound(next, op, i)
    ensures IntentsSound(next)
  {
    forall o | 0 <= o < |next.db.operations| && next.db.operations[o].intent.Some?
      ensures IntentSound(next, o, next.db.operations[o].intent.value)
    {
      if o != op {
        var j := s.db.operations[o].intent.value;
        assert IntentSound(s, o, j);
        assert Live(j) ==> LiveFor(s.db.operations[o], j.profile);
      }
    }
  }

  lemma MoveKeepsActors(s: System, next: System, op: nat, row: Profile, i: Intent)
    requires ActorsSound(s) && IntentsSound(s) && IntentMove(s, next, op, row, i)
    ensures ActorsSound(next)
  {
    forall o | o in next.actors ensures ActorSound(next, o, next.actors[o]) {
      assert ActorSound(s, o, s.actors[o]) && IntentSound(s, o, IntentOf(s, o).value);
    }
  }

  lemma MoveKeepsCoherent(s: System, next: System, op: nat, row: Profile, i: Intent)
    requires Coherent(s) && IntentMove(s, next, op, row, i) && IntentSound(next, op, i)
    ensures Coherent(next)
  {
    ProfilesKeepSound(s.db, next.db);
    MoveKeepsProfiles(s, next, op, row, i);
    MoveKeepsIntents(s, next, op, row, i);
    MoveKeepsActors(s, next, op, row, i);
    MoveKeepsUniqueness(s, next, op, row, i);
    FileStaysKnown(s, next);
  }

  lemma MoveKeepsUniqueness(s: System, next: System, op: nat, row: Profile, i: Intent)
    requires OneLiveIntent(s.db) && ReservationsCurrent(s.db) && IntentMove(s, next, op, row, i)
    ensures OneLiveIntent(next.db) && ReservationsCurrent(next.db)
  {
    forall a, b, p | 0 <= a < b < |next.db.operations|
      ensures !(LiveFor(next.db.operations[a], p) && LiveFor(next.db.operations[b], p))
    {
      assert !(LiveFor(s.db.operations[a], p) && LiveFor(s.db.operations[b], p));
      assert a == op ==> !LiveFor(s.db.operations[b], i.profile);
      assert b == op ==> !LiveFor(s.db.operations[a], i.profile);
    }
    forall r | 0 <= r < |next.db.reservations| && Unsettled(next.db.reservations[r]) &&
               OwnProfile(next.db, next.db.reservations[r].profile)
      ensures 1 <= next.db.reservations[r].generation == next.db.profiles[next.db.reservations[r].profile].generation
    {
      assert OwnProfile(s.db, s.db.reservations[r].profile);
    }
  }

  lemma OthersNotLive(db: Db, op: nat)
    requires OneLiveIntent(db) && op < |db.operations| && db.operations[op].intent.Some? && Live(db.operations[op].intent.value)
    ensures OnlyLiveFor(db, op, db.operations[op].intent.value.profile)
  {
    var p := db.operations[op].intent.value.profile;
    assert LiveFor(db.operations[op], p);
    forall o | 0 <= o < |db.operations| && o != op ensures !LiveFor(db.operations[o], p) {
      assert o < op ==> !(LiveFor(db.operations[op], p) && LiveFor(db.operations[o], p));
      assert op < o ==> !(LiveFor(db.operations[op], p) && LiveFor(db.operations[o], p));
    }
  }

  // ---- finalize and fail ---------------------------------------------------------

  lemma FinalizedRow(s: System, op: nat, now: int)
    requires IntentsSound(s) && OneLiveIntent(s.db) && ValidIntent(s.db, op) && op !in s.actors
    requires Live(s.db.operations[op].intent.value)
    requires GenerationOf(s.file, NameOf(s.db, s.db.operations[op].intent.value)) == s.db.operations[op].intent.value.target
    ensures var i := s.db.operations[op].intent.value;
            var next := s.(db := Finalize(s.db, op, now));
            var row := next.db.profiles[i.profile];
            var j := next.db.operations[op].intent.value;
            IntentMove(s, next, op, row, j) && IntentSound(next, op, j) &&
            (j.state == Completed || j.error == Some(RebindRequired))
  {
    var i := s.db.operations[op].intent.value;
    assert IntentSound(s, op, i);
    OthersNotLive(s.db, op);
  }

  lemma FinalizeKeepsCoherent(s: System, op: nat, now: int)
    requires Coherent(s) && ValidIntent(s.db, op) && op !in s.actors
    requires Live(s.db.operations[op].intent.value)
    requires GenerationOf(s.file, NameOf(s.db, s.db.operations[op].intent.value)) == s.db.operations[op].intent.value.target
    ensures Coherent(s.(db := Finalize(s.db, op, now)))
  {
    var next := s.(db := Finalize(s.db, op, now));
    FinalizedRow(s, op, now);
    MoveKeepsCoherent(s, next, op, next.db.profiles[s.db.operations[op].intent.value.profile],
                      next.db.operations[op].intent.value);
  }

  lemma FailKeepsCoherent(s: System, op: nat)
    requires Coherent(s) && ValidIntent(s.db, op) && op !in s.actors
    requires ActorSound(s, op, Failing(ResubmissionRequired))
    ensures Coherent(s.(db := MarkFailed(s.db, op, ResubmissionRequired)))
  {
    var i := s.db.operations[op].intent.value;
    var next := s.(db := MarkFailed(s.db, op, ResubmissionRequired));
    assert IntentSound(s, op, i);
    OthersNotLive(s.db, op);
    MoveKeepsCoherent(s, next, op, next.db.profiles[i.profile], next.db.operations[op].intent.value);
  }

  lemma FinalizingKeepsCoherent(s: System, op: nat, now: int)
    requires Coherent(s) && op in s.actors && s.actors[op] == Finalizing && ValidIntent(s.db, op)
    ensures Coherent(Unlock(s.(db := Finalize(s.db, op, now)), op))
  {
    assert ActorSound(s, op, s.actors[op]);
    UnlockKeepsAgreed(s, op);
    FinalizeKeepsCoherent(Unlock(s, op), op, now);
  }

  lemma FailingKeepsCoherent(s: System, op: nat, code: IntentError)
    requires Coherent(s) && op in s.actors && s.actors[op] == Failing(code) && ValidIntent(s.db, op)
    ensures Coherent(Unlock(s.(db := MarkFailed(s.db, op, code)), op))
  {
    assert ActorSound(s, op, s.actors[op]);
    UnlockKeepsAgreed(s, op);
    FailKeepsCoherent(Unlock(s, op), op);
  }

  lemma CommitKeepsCoherent(s: System, op: nat, now: int)
    requires Coherent(s)
    ensures Coherent(Settled(s, op, now))
  {
    if op in s.actors && ValidIntent(s.db, op) {
      match s.actors[op]
      case Finalizing => FinalizingKeepsCoherent(s, op, now);
      case Failing(code) => FailingKeepsCoherent(s, op, code);
      case _ =>
    }
  }

  // ---- the compare-and-swap --------------------------------------------------------

  lemma DecidedActorsAreSound(s: System, op: nat, readable: bool)
    requires IntentsSound(s) && FileKnown(s) && ActorsSound(s)
    ensures var next := Decide(s, op, readable);
            next == s.(actors := next.actors) && forall o | o in next.actors :: ActorSound(s, o, next.actors[o])
  {
    var next := Decide(s, op, readable);
    if op in s.actors && s.actors[op] == Recovering && IntentOf(s, op).Some? && Live(IntentOf(s, op).value) && readable {
      DecisionIsSound(s, op);
    }
    DecideKeepsOthers(s, op, readable);
    forall o | o in next.actors ensures ActorSound(s, o, next.actors[o]) {
      assert o in s.actors && ActorSound(s, o, s.actors[o]);
    }
  }

  lemma DecideKeepsOthers(s: System, op: nat, readable: bool)
    ensures var next := Decide(s, op, readable);
            next == s.(actors := next.actors) &&
            forall o | o in next.actors :: o in s.actors && (o != op ==> next.actors[o] == s.actors[o])
  {
  }

  lemma DecideKeepsAgreed(s: System, op: nat, readable: bool)
    requires Agreed(s)
    ensures Agreed(Step(s, ReadSecret(op, readable)))
  {
    DecidedActorsAreSound(s, op, readable);
    OnlyActorsChange(s, Decide(s, op, readable));
  }

  /** Recovery of a live intent finds the target generation, or the expected one
      under an intent that was never installed; never a third. */
  lemma DecisionIsSound(s: System, op: nat)
    requires IntentsSound(s) && FileKnown(s) && op in s.actors && s.actors[op] == Recovering
    requires IntentOf(s, op).Some? && Live(IntentOf(s, op).value)
    ensures ActorSound(s, op, Decide(s, op, true).actors[op])
    ensures var i := IntentOf(s, op).value;
            Decide(s, op, true).actors[op] ==
            if GenerationOf(s.file, NameOf(s.db, i)) == i.target then Finalizing else Failing(ResubmissionRequired)
  {
    var i := IntentOf(s, op).value;
    assert IntentSound(s, op, i);
    var name := NameOf(s.db, i);
    assert name in s.file ==> 1 <= s.file[name];
  }

  /** A dispatched swap moves only its own profile's generation. */
  lemma SwapKeepsAgreed(s: System, op: nat, report: SwapReport)
    requires KeysSound(s.db) && Agreed(s)
    ensures Agreed(Step(s, CompareAndSwap(op, report)))
  {
    if op in s.actors && s.actors[op] == Dispatching && IntentOf(s, op).Some? {
      assert ActorSound(s, op, Dispatching);
      var free := Unlock(s, op);
      UnlockKeepsAgreed(s, op);
      SentKeepsAgreed(free, op);
      AnswerKeepsAgreed(Send(free, op), op, report);
      SwapIgnoresLock(s, op, report);
    }
  }

  lemma SwapIgnoresLock(s: System, op: nat, report: SwapReport)
    requires op in s.actors && s.actors[op] == Dispatching && IntentOf(s, op).Some?
    ensures Swap(s, op, report) == Replace(Send(Unlock(s, op), op), op, IntentOf(s, op).value, report)
  {
    var a := Swap(s, op, report).actors[op];
    assert (s.actors - {op})[op := a] == s.actors[op := a];
  }

  lemma AnsweredActor(s: System, op: nat)
    requires IntentOf(s, op).Some? && Live(IntentOf(s, op).value)
    ensures var i := IntentOf(s, op).value;
            var next := s.(file := s.file[NameOf(s.db, i) := i.target]);
            ActorSound(next, op, Finalizing) && ActorSound(next, op, Recovering)
  {
  }

  lemma Answer(s: System, op: nat, i: Intent, report: SwapReport)
    ensures var name := NameOf(s.db, i);
            Replace(s, op, i, report) ==
            if MayInstall(s.file, name, i.target, i.expected) && report != LostBefore
            then Lock(s.(file := s.file[name := i.target]), op, if report == Clean then Finalizing else Recovering)
            else Lock(s, op, Recovering)
  {
  }

  lemma AnswerKeepsAgreed(s: System, op: nat, report: SwapReport)
    requires KeysSound(s.db) && Agreed(s) && op !in s.actors && IntentOf(s, op).Some? && Dispatched(s, op) == 1
    requires IntentOf(s, op).value.state == Prepared
    ensures Agreed(Replace(s, op, IntentOf(s, op).value, report))
  {
    var i := IntentOf(s, op).value;
    Answer(s, op, i, report);
    if MayInstall(s.file, NameOf(s.db, i), i.target, i.expected) && report != LostBefore {
      assert IntentSound(s, op, i);
      ReplacedKeepsAgreed(s, op);
      AnsweredActor(s, op);
      LockKeepsAgreed(s.(file := s.file[NameOf(s.db, i) := i.target]), op,
                      if report == Clean then Finalizing else Recovering);
    } else {
      LockKeepsAgreed(s, op, Recovering);
    }
  }

  lemma SentKeepsAgreed(s: System, op: nat)
    requires KeysSound(s.db) && Agreed(s) && op !in s.actors && IntentOf(s, op).Some? && Dispatched(s, op) == 0
    ensures Agreed(Send(s, op))
  {
    var next := Send(s, op);
    forall o | 0 <= o < |next.db.operations| && next.db.operations[o].intent.Some?
      ensures IntentSound(next, o, next.db.operations[o].intent.value)
    {
      assert IntentSound(s, o, s.db.operations[o].intent.value);
    }
    forall p | 0 <= p < |next.db.profiles| ensures ProfileSound(next, p) {
      assert ProfileSound(s, p);
    }
    forall o | o in next.actors ensures ActorSound(next, o, next.actors[o]) {
      assert ActorSound(s, o, s.actors[o]);
    }
  }

  lemma ReplacedKeepsAgreed(s: System, op: nat)
    requires KeysSound(s.db) && Agreed(s) && op !in s.actors && ValidIntent(s.db, op)
    requires s.db.operations[op].intent.value.state == Prepared && Dispatched(s, op) == 1
    ensures var i := s.db.operations[op].intent.value;
            Agreed(s.(file := s.file[NameOf(s.db, i) := i.target]))
  {
    var i := s.db.operations[op].intent.value;
    var next := s.(file := s.file[NameOf(s.db, i) := i.target]);
    assert IntentSound(s, op, i);
    OthersNotLive(s.db, op);
    FoundProfile(s.db, i.profile);
    ReplacedKeepsIntents(s, next, op);
    ReplacedKeepsProfiles(s, next, op);
    ReplacedKeepsActors(s, next, op);
  }

  lemma ReplacedKeepsProfiles(s: System, next: System, op: nat)
    requires ProfilesSound(s) && KeysSound(s.db) && ValidIntent(s.db, op) && Live(s.db.operations[op].intent.value)
    requires var i := s.db.operations[op].intent.value;
             next == s.(file := s.file[NameOf(s.db, i) := i.target])
    ensures ProfilesSound(next)
  {
    assert LiveFor(s.db.operations[op], s.db.operations[op].intent.value.profile);
    assert s.db.operations[op] in s.db.operations;
    forall p | 0 <= p < |next.db.profiles| ensures ProfileSound(next, p) {
      assert ProfileSound(s, p);
    }
  }

  lemma ReplacedKeepsActors(s: System, next: System, op: nat)
    requires ActorsSound(s) && IntentsSound(s) && KeysSound(s.db) && ValidIntent(s.db, op) && op !in s.actors
    requires var i := s.db.operations[op].intent.value;
             OnlyLiveFor(s.db, op, i.profile) && next == s.(file := s.file[NameOf(s.db, i) := i.target])
    ensures ActorsSound(next)
  {
    forall o | o in next.actors ensures ActorSound(next, o, next.actors[o]) {
      assert ActorSound(s, o, s.actors[o]);
      var j := IntentOf(s, o).value;
      assert IntentSound(s, o, j) && (Live(j) ==> LiveFor(s.db.operations[o], j.profile));
    }
  }

  lemma ReplacedKeepsIntents(s: System, next: System, op: nat)
    requires IntentsSound(s) && KeysSound(s.db) && ValidIntent(s.db, op)
    requires var i := s.db.operations[op].intent.value;
             i.state == Prepared && OnlyLiveFor(s.db, op, i.profile) && Dispatched(s, op) == 1 &&
             next == s.(file := s.file[NameOf(s.db, i) := i.target])
    ensures IntentsSound(next)
  {
    forall o | 0 <= o < |next.db.operations| && next.db.operations[o].intent.Some?
      ensures IntentSound(next, o, next.db.operations[o].intent.value)
    {
      var j := s.db.operations[o].intent.value;
      assert IntentSound(s, o, j) && (Live(j) ==> LiveFor(s.db.operations[o], j.profile));
    }
  }
  // ---- preparing an install ------------------------------------------------------

  lemma NoneLive(db: Db, op: nat, p: nat)
    requires !HasLiveIntent(db, p)
    ensures OnlyLiveFor(db, op, p)
  {
    forall o | 0 <= o < |db.operations| ensures !LiveFor(db.operations[o], p) {
      assert db.operations[o] in db.operations;
    }
  }

  lemma PlacedIntent(s: System, op: nat, p: nat, row: Profile, i: Intent)
    requires Coherent(s) && op < |s.db.operations| && op !in s.actors && s.db.operations[op].intent.None?
    requires OwnProfile(s.db, p) && !HasLiveIntent(s.db, p) && Idle(s.db, p)
    requires row == s.db.profiles[p].(enabled := false, lifecycle := row.lifecycle, pendingAction := row.pendingAction)
    requires i.profile == p && i.cycle < |s.db.cycles| && i.state == Prepared && i.error.None?
    requires i.target == ExpectedGeneration(i) + 1 && i.created == i.expected.None?
    requires i.expected.Some? ==> 1 <= i.expected.value < MAX_GENERATION
    requires s.db.profiles[p].generation == ExpectedGeneration(i)
    ensures Coherent(Lock(s.(db := WithIntent(s.db.(profiles := s.db.profiles[p := row]), op, i)), op, Dispatching))
  {
    var next := s.(db := WithIntent(s.db.(profiles := s.db.profiles[p := row]), op, i));
    assert ProfileSound(s, p);
    NoneLive(s.db, op, p);
    assert IntentMove(s, next, op, row, i) && IntentSound(next, op, i);
    MoveKeepsCoherent(s, next, op, row, i);
    LockKeepsAgreed(next, op, Dispatching);
  }

  lemma RotateKeepsCoherent(s: System, op: nat, q: ImportRequest, p: nat, c: nat)
    requires Coherent(s) && op < |s.db.operations| && op !in s.actors && s.db.operations[op].intent.None?
    requires OwnProfile(s.db, p) && c < |s.db.cycles| && !HasLiveIntent(s.db, p) && !ProfileBusy(s.db, p)
    requires RequestRefusal(q).None? && q.expected == Some(s.db.profiles[p].generation)
    ensures Coherent(Lock(s.(db := WithIntent(Quarantine(s.db, p), op, NewIntent(q, p, c))), op, Dispatching))
  {
    forall i | 0 <= i < |s.db.reservations| && s.db.reservations[i].profile == p ensures !Unsettled(s.db.reservations[i]) {
      assert s.db.reservations[i] in s.db.reservations;
    }
    PlacedIntent(s, op, p, Quarantined(s.db.profiles[p]), NewIntent(q, p, c));
  }

  /** Generation zero has no unsettled reservation, so a pristine row can be adopted. */
  lemma AdoptKeepsCoherent(s: System, op: nat, q: ImportRequest, p: nat, c: nat)
    requires Coherent(s) && op < |s.db.operations| && op !in s.actors && s.db.operations[op].intent.None?
    requires OwnProfile(s.db, p) && c < |s.db.cycles| && !HasLiveIntent(s.db, p)
    requires RequestRefusal(q).None? && q.expected.None? && s.db.profiles[p].generation == 0 && !s.db.profiles[p].enabled
    ensures Coherent(Lock(s.(db := WithIntent(s.db, op, NewIntent(q, p, c))), op, Dispatching))
  {
    forall i | 0 <= i < |s.db.reservations| && s.db.reservations[i].profile == p ensures !Unsettled(s.db.reservations[i]) {
      assert OwnProfile(s.db, s.db.reservations[i].profile);
    }
    assert s.db.profiles[p := s.db.profiles[p]] == s.db.profiles;
    PlacedIntent(s, op, p, s.db.profiles[p], NewIntent(q, p, c));
  }

  /** A profile without a row has no unsettled reservation, intent or secret. */
  lemma AddedProfileKeepsCoherent(s: System, row: Profile, a: Allocation)
    requires Coherent(s) && Sound(s.db.(profiles := s.db.profiles + [row], allocations := s.db.allocations + [a]))
    requires row.provider == WEBSHARE && !row.enabled && row.generation == 0
    requires FindProfile(s.db.profiles, WEBSHARE, row.name).None?
    ensures Coherent(s.(db := s.db.(profiles := s.db.profiles + [row], allocations := s.db.allocations + [a])))
  {
    var next := s.(db := s.db.(profiles := s.db.profiles + [row], allocations := s.db.allocations + [a]));
    AddedProfileIsUnused(s, |s.db.profiles|);
    AddedKeepsIntents(s, next);
    AddedKeepsProfiles(s, next);
    AddedKeepsReservations(s.db, next.db);
    AddedKeepsActors(s, next);
    FileStaysKnown(s, next);
  }

  /** One more profile row, never enabled, behind the others. */
  ghost predicate RowAdded(db: Db, next: Db) {
    next == db.(profiles := next.profiles, allocations := next.allocations) &&
    |next.profiles| == |db.profiles| + 1 && (forall p | 0 <= p < |db.profiles| :: next.profiles[p] == db.profiles[p]) &&
    !next.profiles[|db.profiles|].enabled && next.profiles[|db.profiles|].generation == 0
  }

  lemma AddedKeepsIntents(s: System, next: System)
    requires IntentsSound(s) && RowAdded(s.db, next.db) && next == s.(db := next.db)
    ensures IntentsSound(next)
  {
    forall op | 0 <= op < |next.db.operations| && next.db.operations[op].intent.Some?
      ensures IntentSound(next, op, next.db.operations[op].intent.value)
    {
      assert IntentSound(s, op, s.db.operations[op].intent.value);
    }
  }

  lemma AddedKeepsProfiles(s: System, next: System)
    requires ProfilesSound(s) && FileKnown(s) && RowAdded(s.db, next.db) && next == s.(db := next.db)
    requires FindProfile(s.db.profiles, WEBSHARE, next.db.profiles[|s.db.profiles|].name).None?
    ensures ProfilesSound(next)
  {
    forall p | 0 <= p < |next.db.profiles| ensures ProfileSound(next, p) {
      assert p < |s.db.profiles| ==> ProfileSound(s, p);
      assert HasLiveIntent(next.db, p) == HasLiveIntent(s.db, p);
    }
  }

  lemma AddedKeepsReservations(db: Db, next: Db)
    requires ReservationsCurrent(db) && Linked(db) && RowAdded(db, next)
    ensures ReservationsCurrent(next)
  {
    forall i | 0 <= i < |next.reservations| && Unsettled(next.reservations[i]) && OwnProfile(next, next.reservations[i].profile)
      ensures 1 <= next.reservations[i].generation == next.profiles[next.reservations[i].profile].generation
    {
      assert OwnProfile(db, db.reservations[i].profile);
    }
  }

  lemma AddedKeepsActors(s: System, next: System)
    requires ActorsSound(s) && IntentsSound(s) && RowAdded(s.db, next.db) && next == s.(db := next.db)
    ensures ActorsSound(next)
  {
    forall op | op in next.actors ensures ActorSound(next, op, next.actors[op]) {
      assert ActorSound(s, op, s.actors[op]) && IntentSound(s, op, IntentOf(s, op).value);
    }
  }

  lemma AddedProfileIsUnused(s: System, p: nat)
    requires IntentsSound(s) && Linked(s.db) && p == |s.db.profiles|
    ensures !HasLiveIntent(s.db, p) && Idle(s.db, p)
  {
    forall o | o in s.db.operations ensures !LiveFor(o, p) {
      var op :| 0 <= op < |s.db.operations| && s.db.operations[op] == o;
      assert o.intent.Some? ==> IntentSound(s, op, o.intent.value);
    }
  }

  lemma CreateKeepsCoherent(s: System, op: nat, q: ImportRequest, row: Profile, a: Allocation, c: nat)
    requires Coherent(s) && op < |s.db.operations| && op !in s.actors && s.db.operations[op].intent.None?
    requires Sound(s.db.(profiles := s.db.profiles + [row], allocations := s.db.allocations + [a]))
    requires row.provider == WEBSHARE && !row.enabled && row.generation == 0 && c < |s.db.cycles|
    requires FindProfile(s.db.profiles, WEBSHARE, row.name).None?
    requires RequestRefusal(q).None? && q.expected.None?
    ensures var added := s.db.(profiles := s.db.profiles + [row], allocations := s.db.allocations + [a]);
            Coherent(Lock(s.(db := WithIntent(added, op, NewIntent(q, |s.db.profiles|, c))), op, Dispatching))
  {
    var next := s.(db := s.db.(profiles := s.db.profiles + [row], allocations := s.db.allocations + [a]));
    AddedProfileKeepsCoherent(s, row, a);
    AddedProfileIsUnused(s, |s.db.profiles|);
    AdoptKeepsCoherent(next, op, q, |s.db.profiles|, c);
  }

  /** Draining quarantines the profile and revokes its reservations, which keep
      their generation until they settle. */
  lemma DrainKeepsCoherent(s: System, p: nat)
    requires Coherent(s) && OwnProfile(s.db, p)
    ensures Coherent(s.(db := RevokeProfile(Quarantine(s.db, p), p)))
  {
    QuarantineKeepsCoherent(s, p);
    RevokeKeepsCoherent(s.(db := Quarantine(s.db, p)), p);
  }

  lemma QuarantineKeepsCoherent(s: System, p: nat)
    requires Coherent(s) && OwnProfile(s.db, p)
    ensures Coherent(s.(db := Quarantine(s.db, p)))
  {
    var next := s.(db := Quarantine(s.db, p));
    ProfilesKeepSound(s.db, next.db);
    QuarantineKeepsIntents(s, p);
    QuarantineKeepsProfiles(s, p);
    FileStaysKnown(s, next);
  }

  lemma QuarantineKeepsProfiles(s: System, p: nat)
    requires ProfilesSound(s) && OwnProfile(s.db, p)
    ensures ProfilesSound(s.(db := Quarantine(s.db, p)))
  {
    var next := s.(db := Quarantine(s.db, p));
    forall o | 0 <= o < |next.db.profiles| ensures ProfileSound(next, o) {
      assert ProfileSound(s, o) && HasLiveIntent(next.db, o) == HasLiveIntent(s.db, o);
    }
  }

  lemma QuarantineKeepsIntents(s: System, p: nat)
    requires IntentsSound(s) && ActorsSound(s) && ReservationsCurrent(s.db) && OwnProfile(s.db, p)
    ensures var next := s.(db := Quarantine(s.db, p));
            IntentsSound(next) && ActorsSound(next) && ReservationsCurrent(next.db)
  {
    var next := s.(db := Quarantine(s.db, p));
    forall op | 0 <= op < |next.db.operations| && next.db.operations[op].intent.Some?
      ensures IntentSound(next, op, next.db.operations[op].intent.value)
    {
      assert IntentSound(s, op, s.db.operations[op].intent.value);
    }
    forall op | op in next.actors ensures ActorSound(next, op, next.actors[op]) {
      assert ActorSound(s, op, s.actors[op]) && IntentSound(s, op, IntentOf(s, op).value);
    }
    forall i | 0 <= i < |next.db.reservations| && Unsettled(next.db.reservations[i]) &&
               OwnProfile(next.db, next.db.reservations[i].profile)
      ensures 1 <= next.db.reservations[i].generation == next.db.profiles[next.db.reservations[i].profile].generation
    {
      assert OwnProfile(s.db, s.db.reservations[i].profile);
    }
  }

  lemma RevokeKeepsIntents(s: System, p: nat)
    requires IntentsSound(s)
    ensures IntentsSound(s.(db := RevokeProfile(s.db, p)))
  {
    var next := s.(db := RevokeProfile(s.db, p));
    forall op | 0 <= op < |next.db.operations| && next.db.operations[op].intent.Some?
      ensures IntentSound(next, op, next.db.operations[op].intent.value)
    {
      assert IntentSound(s, op, s.db.operations[op].intent.value);
    }
  }

  lemma RevokeKeepsProfiles(s: System, p: nat)
    requires ProfilesSound(s) && ActorsSound(s)
    ensures var next := s.(db := RevokeProfile(s.db, p));
            ProfilesSound(next) && ActorsSound(next)
  {
    var next := s.(db := RevokeProfile(s.db, p));
    forall o | 0 <= o < |next.db.profiles| ensures ProfileSound(next, o) {
      assert ProfileSound(s, o) && HasLiveIntent(next.db, o) == HasLiveIntent(s.db, o);
    }
    forall op | op in next.actors ensures ActorSound(next, op, next.actors[op]) {
      assert ActorSound(s, op, s.actors[op]);
    }
  }

  lemma RevokeKeepsReservations(db: Db, p: nat)
    requires ReservationsCurrent(db)
    ensures ReservationsCurrent(RevokeProfile(db, p))
  {
    var next := RevokeProfile(db, p);
    forall i | 0 <= i < |next.reservations| && Unsettled(next.reservations[i]) && OwnProfile(next, next.reservations[i].profile)
      ensures 1 <= next.reservations[i].generation == next.profiles[next.reservations[i].profile].generation
    {
      assert OwnProfile(db, db.reservations[i].profile) && Unsettled(db.reservations[i]);
    }
  }

  lemma RevokeKeepsCoherent(s: System, p: nat)
    requires Coherent(s)
    ensures Coherent(s.(db := RevokeProfile(s.db, p)))
  {
    var next := s.(db := RevokeProfile(s.db, p));
    FlagsKeepSound(s.db, next.db);
    RevokeKeepsIntents(s, p);
    RevokeKeepsProfiles(s, p);
    RevokeKeepsReservations(s.db, p);
    FileStaysKnown(s, next);
  }

  lemma PrepareKeepsCoherent(s: System, op: nat, actor: string, q: ImportRequest, now: int)
    requires Coherent(s) && op !in s.actors
    ensures var (db, outcome) := Prepare(s.db, op, actor, q, now);
            Coherent(if outcome.Ready? then Lock(s.(db := db), op, Dispatching) else s.(db := db))
  {
    if Refuses(s.db, op, actor, q, now).None? {
      var c := CoveringCycles(s.db.cycles, WEBSHARE, now)[0];
      var found := FindProfile(s.db.profiles, WEBSHARE, q.name);
      assert c in CoveringCycles(s.db.cycles, WEBSHARE, now);
      if found.None? {
        PrepareNewKeepsCoherent(s, op, actor, q, now);
      } else if q.expected.Some? && ProfileBusy(s.db, found.value) {
        DrainKeepsCoherent(s, found.value);
      } else if !HasLiveIntent(s.db, found.value) {
        if q.expected.Some? {
          RotateKeepsCoherent(s, op, q, found.value, c);
        } else {
          AdoptKeepsCoherent(s, op, q, found.value, c);
        }
      }
    }
  }

  lemma PrepareNewKeepsCoherent(s: System, op: nat, actor: string, q: ImportRequest, now: int)
    requires Coherent(s) && op !in s.actors && Refuses(s.db, op, actor, q, now).None?
    requires FindProfile(s.db.profiles, WEBSHARE, q.name).None?
    ensures var (db, outcome) := Prepare(s.db, op, actor, q, now);
            outcome.Ready? && Coherent(Lock(s.(db := db), op, Dispatching))
  {
    var c := CoveringCycles(s.db.cycles, WEBSHARE, now)[0];
    assert c in CoveringCycles(s.db.cycles, WEBSHARE, now);
    var row := Profile(WEBSHARE, q.name, q.display.value, false, Pending, false, false, 0, 0);
    var a := Allocation(c, |s.db.profiles|, q.share.value);
    AddedProfileKeepsSound(s.db, row, a);
    CreateKeepsCoherent(s, op, q, row, a, c);
  }

  lemma FirstInstall(s: System, op: nat, actor: string, q: ImportRequest, now: int)
    requires op !in s.actors && RequestRefusal(q).None? && IntentOf(s, op).None?
    ensures var (db, outcome) := Prepare(s.db, op, actor, q, now);
            Install(s, op, actor, q, now) == if outcome.Ready? then Lock(s.(db := db), op, Dispatching) else s.(db := db)
  {
  }

  lemma InstallKeepsCoherent(s: System, op: nat, actor: string, q: ImportRequest, now: int)
    requires Coherent(s)
    ensures Coherent(Install(s, op, actor, q, now))
  {
    if op !in s.actors && RequestRefusal(q).None? {
      if IntentOf(s, op).Some? {
        LockKeepsAgreed(s, op, Recovering);
      } else {
        PrepareKeepsCoherent(s, op, actor, q, now);
        FirstInstall(s, op, actor, q, now);
      }
    }
  }

  // ---- every step, every run -------------------------------------------------------

  lemma OperationStepKeepsIntents(s: System, e: Event)
    requires e.BeginOperation? || e.FinishOperation?
    ensures SameIntents(s.db, Step(s, e).db) && Step(s, e) == s.(db := Step(s, e).db)
  {
  }

  lemma OperationStepKeepsCoherent(s: System, e: Event)
    requires Coherent(s) && (e.BeginOperation? || e.FinishOperation?)
    ensures Coherent(Step(s, e))
  {
    OperationStepKeepsIntents(s, e);
    OperationsKeepCoherent(s, Step(s, e));
  }

  /** The steps that touch no table. */
  predicate FenceEvent(e: Event) {
    e.StartRecovery? || e.CompareAndSwap? || e.ReadSecret? || e.Crash?
  }

  lemma FenceKeepsTables(s: System, e: Event)
    requires FenceEvent(e)
    ensures Step(s, e).db == s.db
  {
  }

  lemma StartRecoveryKeepsAgreed(s: System, op: nat)
    requires Agreed(s)
    ensures Agreed(Step(s, StartRecovery(op)))
  {
    if op !in s.actors && IntentOf(s, op).Some? {
      LockKeepsAgreed(s, op, Recovering);
    }
  }

  lemma FenceStepKeepsAgreed(s: System, e: Event)
    requires KeysSound(s.db) && Agreed(s) && FenceEvent(e)
    ensures Agreed(Step(s, e))
  {
    match e
    case StartRecovery(op) => StartRecoveryKeepsAgreed(s, op);
    case CompareAndSwap(op, report) => SwapKeepsAgreed(s, op, report);
    case ReadSecret(op, readable) => DecideKeepsAgreed(s, op, readable);
    case Crash(op) => UnlockKeepsAgreed(s, op);
  }

  lemma FenceStepKeepsCoherent(s: System, e: Event)
    requires Coherent(s) && FenceEvent(e)
    ensures Coherent(Step(s, e))
  {
    FenceKeepsTables(s, e);
    FenceStepKeepsAgreed(s, e);
  }

  lemma StepKeepsCoherent(s: System, e: Event)
    requires Coherent(s)
    ensures Coherent(Step(s, e))
  {
    if FenceEvent(e) {
      FenceStepKeepsCoherent(s, e);
    } else if e.BeginOperation? || e.FinishOperation? {
      OperationStepKeepsCoherent(s, e);
    } else if e.Traffic? {
      TrafficKeepsCoherent(s, e.e);
    } else if e.StartInstall? {
      InstallKeepsCoherent(s, e.op, e.actor, e.q, e.now);
    } else {
      CommitKeepsCoherent(s, e.op, e.now);
    }
  }

  lemma {:induction false} TraceKeepsCoherent(s: System, events: seq<Event>)
    requires Coherent(s)
    ensures Coherent(Trace(s, events))
  {
    if events != [] {
      TraceKeepsCoherent(s, events[..|events| - 1]);
      StepKeepsCoherent(Trace(s, events[..|events| - 1]), events[|events| - 1]);
    }
  }
}
