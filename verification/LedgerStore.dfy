/** The ledger's transactions as the statements that update its tables. */
module LedgerStore {
  import opened Tables
  import opened Rows
  import Ledger

  class Store {
    var cycles: seq<Cycle>
    var profiles: seq<Profile>
    var routes: seq<Route>
    var allocations: seq<Allocation>
    var reservations: seq<Reservation>
    var attempts: seq<Attempt>
    var operations: seq<Operation>

    function Contents(): Db
      reads this
    {
      Db(cycles, profiles, routes, allocations, reservations, attempts, operations)
    }

    constructor ()
      ensures Contents() == Db([], [], [], [], [], [], [])
    {
      cycles, profiles, routes, allocations := [], [], [], [];
      reservations, attempts, operations := [], [], [];
    }

    method Reserve(clock: Ledger.Clock, q: Ledger.ReserveRequest) returns (verdict: Result<nat, Ledger.Denial>)
      modifies this`reservations
      ensures (Contents(), verdict) == Ledger.Reserve(old(Contents()), clock, q)
    {
      if q.job.None? == q.probe.None? {
        return Err(Ledger.ConsumerNotUnique);
      }
      if q.bytes <= 0 {
        return Err(Ledger.NonPositiveBytes);
      }
      if !Ledger.ValidProvider(q.provider) {
        return Err(Ledger.InvalidProvider);
      }
      if q.profile.None? || q.route.None? {
        return Err(Ledger.MissingIdentity);
      }
      var covering := Ledger.CoveringCycles(cycles, q.provider, clock.db);
      if |covering| > 1 {
        return Err(Ledger.MultipleCycles);
      }
      if |covering| == 0 {
        return Err(Ledger.NoCycle);
      }
      assert covering[0] in covering;
      var denial := Ledger.CycleDenial(Contents(), clock, q, covering[0], q.profile.value, q.route.value);
      if denial.Some? {
        return Err(denial.value);
      }
      if Ledger.ConsumerTaken(Contents(), q) {
        return Err(Ledger.ConsumerAlreadyReserved);
      }
      verdict := Ok(|reservations|);
      reservations := reservations + [Ledger.NewReservation(q, covering[0], clock.db)];
    }

    /** The cycle update that re-reads the settled sum. */
    method SettleCycle(c: nat)
      modifies this`cycles
      ensures Contents() == Ledger.SettleCycle(old(Contents()), c)
    {
      if c >= |cycles| {
        return;
      }
      var settled := Sum(reservations, SettledBytes(c));
      var k := cycles[c];
      if settled > k.application {
        k := k.(application := settled);
      }
      if settled >= k.operational {
        k := k.(killSwitch := true);
      }
      cycles := cycles[c := k];
    }

    method CloseReservation(id: nat, used: nat, requests: nat)
      modifies this`cycles, this`reservations
      ensures Contents() == Ledger.CloseReservation(old(Contents()), id, used, requests)
    {
      if id >= |reservations| {
        return;
      }
      var r := reservations[id];
      var raised := r.(estimated := Max(r.estimated, used), requests := Max(r.requests, requests));
      if Unsettled(r) {
        reservations := reservations[id := raised.(state := Closed, atSettlement := raised.estimated)];
      } else if r.state == Cancelled && (r.estimated < used || r.requests < requests) {
        reservations := reservations[id := raised];
      } else {
        return;
      }
      SettleCycle(r.cycle);
    }

    /** Cancels the abandoned reservations, then settles their cycles. */
    method CloseStale(candidates: set<nat>, confirmed: set<nat>) returns (closed: nat)
      modifies this`cycles, this`reservations
      ensures Contents() == Ledger.CloseStale(old(Contents()), candidates, confirmed)
      ensures closed == 0 ==> Contents() == old(Contents())
    {
      ghost var before := Contents();
      ghost var cancelled := Ledger.CancelStale(before, candidates, confirmed);
      var touched: set<nat> := {};
      closed := 0;
      var i := 0;
      while i < |reservations|
        invariant i <= |reservations| == |before.reservations| && cycles == before.cycles
        invariant reservations[i..] == before.reservations[i..]
        invariant forall j | 0 <= j < i :: reservations[j] == cancelled.reservations[j]
        invariant forall c :: c in touched <==>
                                exists j | 0 <= j < i ::
                                  Ledger.StaleRow(before, candidates, confirmed, j) && before.reservations[j].cycle == c
        invariant closed == 0 ==> reservations == before.reservations && touched == {}
      {
        var r := reservations[i];
        assert r == before.reservations[i];
        if i in candidates && i in confirmed && Unsettled(r) {
          reservations := reservations[i := r.(state := Cancelled, atSettlement := r.estimated)];
          touched := touched + {r.cycle};
          closed := closed + 1;
        }
        i := i + 1;
      }
      assert reservations == cancelled.reservations;
      var c := 0;
      while c < |cycles|
        invariant c <= |cycles| == |before.cycles| && reservations == cancelled.reservations
        invariant cycles[c..] == before.cycles[c..]
        invariant forall d | 0 <= d < c ::
                    cycles[d] == Ledger.CloseStale(before, candidates, confirmed).cycles[d]
        invariant touched == {} ==> cycles == before.cycles
      {
        assert cycles[c] == before.cycles[c];
        ghost var rest := cycles[c..];
        if c in touched {
          SettleCycle(c);
        }
        assert cycles[c + 1..] == rest[1..] && rest[1..] == before.cycles[c + 1..];
        c := c + 1;
      }
      assert cycles == Ledger.CloseStale(before, candidates, confirmed).cycles;
    }

    method Authorize(now: int, id: nat, estimate: int, maximum: Option<int>) returns (outcome: Ledger.Authorization)
      modifies this`attempts
      ensures (Contents(), outcome) == Ledger.Authorize(old(Contents()), now, id, estimate, maximum)
    {
      if estimate < 0 || (maximum.Some? && maximum.value < 1) {
        return Ledger.Refused(Ledger.InvalidArgument);
      }
      var denial := Ledger.AttemptDenial(Contents(), now, id);
      if denial.Some? {
        return Ledger.Refused(denial.value);
      }
      var r := reservations[id];
      var pending := Sum(attempts, PendingBytes(id));
      if r.estimated + pending + estimate > r.reserved {
        return Ledger.NoCapacity;
      }
      if maximum.Some? && r.requests + Sum(attempts, PendingRequests(id)) >= maximum.value {
        return Ledger.NoCapacity;
      }
      outcome := Ledger.Granted(|attempts|);
      attempts := attempts + [Attempt(id, estimate, Authorized)];
    }

    method ReconcileAttempt(id: nat, actual: int, requests: int)
      returns (outcome: Result<Ledger.Usage, Ledger.Denial>)
      modifies this`attempts, this`reservations
      ensures (Contents(), outcome) == Ledger.ReconcileAttempt(old(Contents()), id, actual, requests)
    {
      if actual < 0 || requests < 0 {
        return Err(Ledger.InvalidArgument);
      }
      if id >= |attempts| || attempts[id].reservation >= |reservations| {
        return Err(Ledger.UnknownAttempt);
      }
      var a := attempts[id];
      match a.state {
        case Released =>
          return Err(Ledger.AttemptReleased);
        case Reconciled(bytes, count) =>
          if bytes != actual || count != requests {
            return Err(Ledger.AttemptDiffers);
          }
        case Authorized =>
          attempts := attempts[id := a.(state := Reconciled(actual, requests))];
          var r := reservations[a.reservation];
          r := r.(estimated := r.estimated + actual);
          r := r.(requests := r.requests + requests);
          reservations := reservations[a.reservation := r];
      }
      outcome := Ok(Ledger.UsageOf(reservations[a.reservation]));
    }

    method ReleaseAttempt(id: nat) returns (outcome: Result<(), Ledger.Denial>)
      modifies this`attempts
      ensures (Contents(), outcome) == Ledger.ReleaseAttempt(old(Contents()), id)
    {
      if id < |attempts| && attempts[id].state.Authorized? {
        attempts := attempts[id := attempts[id].(state := Released)];
        return Ok(());
      }
      if id >= |attempts| {
        return Err(Ledger.UnknownAttempt);
      }
      if !attempts[id].state.Released? {
        return Err(Ledger.AttemptDispatched);
      }
      outcome := Ok(());
    }

    method ReconcileProvider(provider: string, start: int, reported: int, ok: bool, now: int)
      modifies this`cycles
      ensures Contents() == Ledger.ReconcileProvider(old(Contents()), provider, start, reported, ok, now)
    {
      ghost var before := Contents();
      ghost var after := Ledger.ReconcileProvider(before, provider, start, reported, ok, now);
      var c := 0;
      while c < |cycles|
        invariant c <= |cycles| == |before.cycles|
        invariant forall d | 0 <= d < c :: cycles[d] == after.cycles[d]
        invariant cycles[c..] == before.cycles[c..]
      {
        assert cycles[c] == before.cycles[c];
        var k := cycles[c];
        if k.provider == provider && k.start == start {
          if reported > k.reported {
            k := k.(reported := reported);
          }
          if ok {
            k := k.(reconciledAt := Some(now));
          }
          k := k.(reconciliationOk := ok);
          if k.reported >= k.operational {
            k := k.(killSwitch := true);
          }
          cycles := cycles[c := k];
        }
        c := c + 1;
      }
      assert cycles == after.cycles;
    }

    /** The kill-switch action that also revokes every active reservation. */
    method RevokeAll(provider: string)
      modifies this`cycles, this`reservations
      ensures Contents() == Ledger.RevokeAll(old(Contents()), provider)
    {
      ghost var before := Contents();
      ghost var after := Ledger.RevokeAll(before, provider);
      var c := 0;
      while c < |cycles|
        invariant c <= |cycles| == |before.cycles| && reservations == before.reservations
        invariant forall d | 0 <= d < c :: cycles[d] == after.cycles[d]
        invariant cycles[c..] == before.cycles[c..]
      {
        assert cycles[c] == before.cycles[c];
        if cycles[c].provider == provider && cycles[c].lifecycle == ActiveCycle {
          cycles := cycles[c := cycles[c].(killSwitch := true)];
        }
        c := c + 1;
      }
      assert cycles == after.cycles;
      var i := 0;
      while i < |reservations|
        invariant i <= |reservations| == |before.reservations| && cycles == after.cycles
        invariant forall j | 0 <= j < i :: reservations[j] == after.reservations[j]
        invariant reservations[i..] == before.reservations[i..]
      {
        assert reservations[i] == before.reservations[i];
        var r := reservations[i];
        if r.cycle < |cycles| && cycles[r.cycle].provider == provider && r.state == Active {
          reservations := reservations[i := r.(state := RevocationRequested, revocationRequested := true)];
        }
        i := i + 1;
      }
      assert reservations == after.reservations;
    }

    method ClearKillSwitch(provider: string, now: int) returns (cleared: nat)
      modifies this`cycles
      ensures Contents() == Ledger.ClearKillSwitch(old(Contents()), provider, now)
      ensures cleared == 0 ==> Contents() == old(Contents())
    {
      ghost var before := Contents();
      ghost var after := Ledger.ClearKillSwitch(before, provider, now);
      var enabled := exists p | p in profiles :: p.provider == provider && p.enabled;
      cleared := 0;
      var c := 0;
      while c < |cycles|
        invariant c <= |cycles| == |before.cycles|
        invariant forall d | 0 <= d < c :: cycles[d] == after.cycles[d]
        invariant cycles[c..] == before.cycles[c..]
        invariant cleared == 0 ==> cycles == before.cycles
      {
        assert cycles[c] == before.cycles[c];
        var k := cycles[c];
        if k.provider == provider && k.lifecycle == ActiveCycle && k.reconciliationOk && k.reconciledAt.Some? &&
           k.reconciledAt.value > now - Ledger.CLEAR_WINDOW &&
           Max(k.reported, k.application) < k.operational && enabled
        {
          cycles := cycles[c := k.(killSwitch := false)];
          cleared := cleared + 1;
        }
        c := c + 1;
      }
      assert cycles == after.cycles;
    }

    method CloseExpired(provider: string, now: int)
      modifies this`cycles
      ensures Contents() == Ledger.CloseExpired(old(Contents()), provider, now)
    {
      ghost var before := Contents();
      ghost var after := Ledger.CloseExpired(before, provider, now);
      var c := 0;
      while c < |cycles|
        invariant c <= |cycles| == |before.cycles|
        invariant forall d | 0 <= d < c :: cycles[d] == after.cycles[d]
        invariant cycles[c..] == before.cycles[c..]
      {
        assert cycles[c] == before.cycles[c];
        if cycles[c].provider == provider && cycles[c].lifecycle == ActiveCycle && cycles[c].end <= now {
          cycles := cycles[c := cycles[c].(lifecycle := ClosedCycle)];
        }
        c := c + 1;
      }
      assert cycles == after.cycles;
    }

    /** Closes what expired, then opens the proposal unless an active cycle is
        left, in which case everything rolls back. */
    method OpenCycle(c: nat, provider: string, confirmed: bool, now: int) returns (done: bool)
      modifies this`cycles
      ensures Contents() == Ledger.OpenCycle(old(Contents()), c, provider, confirmed, now)
      ensures done ==> c < |cycles| && cycles[c].lifecycle == ActiveCycle && cycles[c].killSwitch
    {
      if c >= |cycles| || cycles[c].provider != provider || cycles[c].lifecycle != ProposedCycle || !confirmed {
        return false;
      }
      var saved := cycles;
      CloseExpired(provider, now);
      if exists k | k in cycles :: k.provider == provider && k.lifecycle == ActiveCycle {
        cycles := saved;
        return false;
      }
      cycles := cycles[c := cycles[c].(lifecycle := ActiveCycle, killSwitch := true, reconciliationOk := false)];
      done := true;
    }

    method CreateProfile(provider: string, name: string, display: string, bytes: int) returns (created: Option<nat>)
      modifies this`profiles, this`allocations
      ensures (Contents(), created) == Ledger.CreateProfile(old(Contents()), provider, name, display, bytes)
    {
      var active := Ledger.FirstActive(cycles, provider);
      if bytes <= 0 || active.None? || Ledger.NameTaken(Contents(), name) {
        return None;
      }
      var k := cycles[active.value];
      var share := Sum(allocations, AllocatedBytes(active.value));
      if share + bytes + k.unmanaged > k.operational {
        return None;
      }
      created := Some(|profiles|);
      allocations := allocations + [Allocation(active.value, |profiles|, bytes)];
      profiles := profiles + [Profile(provider, name, display, false, Pending, false, false, 0, 0)];
    }

    /** The transaction of an allocation change, on what was read before it. */
    method ChangeAllocation(p: nat, bytes: int, before: Ledger.AllocationRead)
      modifies this`allocations
      ensures Contents() == Ledger.ChangeAllocation(old(Contents()), p, bytes, before)
    {
      if bytes < 0 || bytes < before.limit || (before.busy && bytes < before.bytes) {
        return;
      }
      if p >= |profiles| || before.row.None? || before.row.value >= |allocations| {
        return;
      }
      var active := Ledger.FirstActive(cycles, profiles[p].provider);
      if active.None? {
        return;
      }
      var others := Sum(allocations, OtherAllocatedBytes(active.value, p));
      if others + cycles[active.value].unmanaged + bytes <= cycles[active.value].operational {
        allocations := allocations[before.row.value := allocations[before.row.value].(bytes := bytes)];
      }
    }
  }
}
