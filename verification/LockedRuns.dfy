/** The lock machine beside the ledger it locks: transactions hold and await rows
    while others commit, and the tables grow under them. */
module LockedRuns {
  import opened Tables
  import opened Rows
  import opened Ledger
  import opened LedgerProofs
  import opened LockOrder
  import Consumers = Admission

  datatype Joint = Joint(db: Db, locks: Schedule)

  /** `Write` is any ledger transaction's effect at its commit; `Begin` starts a
      transaction with the plan that it reads off the tables at that moment. */
  datatype JointEvent = Write(e: LedgerEvent) | Begin(e: LedgerEvent, plan: Plan) | Take(t: nat) | End(t: nat)

  /** What the transaction finds on the tables as it starts. */
  predicate Plans(db: Db, e: LedgerEvent, p: Plan) {
    Serves(db, e, p) &&
    (e.ReserveTx? ==> Admission(db, e.clock, e.request).Ok?) &&
    (e.AuthorizeTx? || e.CloseTx? ==> e.id < |db.reservations|) &&
    (e.BookTx? ==> e.id < |db.attempts|) &&
    (e.StaleTx? ==> p == CleanupPlan(db, e.candidates, e.confirmed))
  }

  function JointStep(j: Joint, e: JointEvent): Joint {
    match e
    case Write(w) => j.(db := Apply(j.db, w))
    case Begin(b, plan) => if Plans(j.db, b, plan) then j.(locks := LockStep(j.locks, Start(plan))) else j
    case Take(t) => j.(locks := LockStep(j.locks, Acquire(t)))
    case End(t) => j.(locks := LockStep(j.locks, Finish(t)))
  }

  function JointRun(start: Db, events: seq<JointEvent>): Joint {
    if events == [] then Joint(start, []) else JointStep(JointRun(start, events[..|events| - 1]), events[|events| - 1])
  }

  // ---- a plan outlives the tables it was read from ---------------------------------

  predicate Extends(a: CycleOf, b: CycleOf) {
    (forall x | x in a.reservations :: x in b.reservations && b.reservations[x] == a.reservations[x]) &&
    (forall x | x in a.probes :: x in b.probes && b.probes[x] == a.probes[x])
  }

  /** Rows only grow and keep their cycle and their probe. */
  lemma CyclesExtend(db: Db, next: Db)
    requires Evolves(db, next) && Consumers.ConsumersUnique(next.reservations)
    ensures Extends(CyclesOf(db), CyclesOf(next))
  {
    forall x | x in CyclesOf(db).reservations
      ensures x in CyclesOf(next).reservations && CyclesOf(next).reservations[x] == CyclesOf(db).reservations[x]
    {
      assert RowStep(db.reservations[x], next.reservations[x]);
    }
    forall probe | probe in CyclesOf(db).probes
      ensures probe in CyclesOf(next).probes && CyclesOf(next).probes[probe] == CyclesOf(db).probes[probe]
    {
      ProbeKeepsCycle(db, next, probe);
    }
  }

  lemma ProbeKeepsCycle(db: Db, next: Db, probe: nat)
    requires Evolves(db, next) && Consumers.ConsumersUnique(next.reservations) && probe in CyclesOf(db).probes
    ensures probe in CyclesOf(next).probes && CyclesOf(next).probes[probe] == CyclesOf(db).probes[probe]
  {
    var i := ProbeRowOf(db.reservations, probe).value;
    assert RowStep(db.reservations[i], next.reservations[i]);
    ProbeCycle(next, i);
  }

  lemma PlanStays(p: Plan, a: CycleOf, b: CycleOf, m: nat, n: nat)
    requires WellFormed(p, a, m) && Extends(a, b) && m <= n
    ensures WellFormed(p, b, n)
  {
  }

  lemma PlansStay(s: Schedule, a: CycleOf, b: CycleOf, m: nat, n: nat)
    requires PlansSound(s, a, m) && Extends(a, b) && m <= n
    ensures PlansSound(s, b, n)
  {
    forall t | 0 <= t < |s| ensures PlanSound(s[t], b, n) {
      assert PlanSound(s[t], a, m);
      PlanStays(s[t].plan, a, b, m, n);
    }
  }

  // ---- every run --------------------------------------------------------------------

  ghost predicate JointSound(j: Joint) {
    Sound(j.db) && Consumers.ConsumersUnique(j.db.reservations) &&
    LocksSound(j.locks) && PlansSound(j.locks, CyclesOf(j.db), |j.db.cycles|)
  }

  lemma WriteKeepsJointSound(j: Joint, e: LedgerEvent)
    requires JointSound(j)
    ensures JointSound(JointStep(j, Write(e)))
  {
    var next := Apply(j.db, e);
    ApplyKeepsSound(j.db, e);
    Consumers.ApplyKeepsConsumers(j.db, e);
    CyclesExtend(j.db, next);
    PlansStay(j.locks, CyclesOf(j.db), CyclesOf(next), |j.db.cycles|, |next.cycles|);
  }

  lemma LockKeepsJointSound(j: Joint, e: JointEvent)
    requires JointSound(j) && !e.Write?
    ensures JointSound(JointStep(j, e))
  {
    var of, cycles := CyclesOf(j.db), |j.db.cycles|;
    match e
    case Begin(b, plan) =>
      if Plans(j.db, b, plan) {
        LedgerPlansAreWellFormed(j.db, b, plan);
        StartKeepsSound(j.locks, of, cycles, plan);
      }
    case Take(t) =>
      if CanStep(j.locks, t) && !Done(j.locks[t]) {
        AcquireKeepsSound(j.locks, of, cycles, t);
      }
    case End(t) =>
      if t < |j.locks| {
        FinishKeepsSound(j.locks, of, cycles, t);
      }
  }

  lemma {:induction false} JointRunsAreSound(start: Db, events: seq<JointEvent>)
    requires Sound(start) && Consumers.ConsumersUnique(start.reservations)
    ensures JointSound(JointRun(start, events))
  {
    if events != [] {
      var before := JointRun(start, events[..|events| - 1]);
      var e := events[|events| - 1];
      JointRunsAreSound(start, events[..|events| - 1]);
      if e.Write? {
        WriteKeepsJointSound(before, e.e);
      } else {
        LockKeepsJointSound(before, e);
      }
    }
  }

  /** However the tables grow while transactions hold and await locks, some
      transaction can step, and without new arrivals all of them commit. */
  lemma GrowingLedgerNeverDeadlocks(start: Db, events: seq<JointEvent>)
    requires Sound(start) && Consumers.ConsumersUnique(start.reservations)
    ensures var s := JointRun(start, events).locks;
            (s != [] ==> exists t :: CanStep(s, t)) && exists order :: AllCommit(s, order)
  {
    JointRunsAreSound(start, events);
    var j := JointRun(start, events);
    if j.locks != [] {
      var t := SomeoneSteps(j.locks, CyclesOf(j.db), |j.db.cycles|, 0);
    }
    var order := EveryoneCommits(j.locks, CyclesOf(j.db), |j.db.cycles|);
  }
}
