/** Profiles and their shares of a cycle: when one is created or changed, read off
    the rows. */
module Shares {
  import opened Tables
  import opened Rows
  import opened Ledger
  import opened LedgerProofs

  predicate Runs(db: Db, provider: string, c: nat) {
    c < |db.cycles| && db.cycles[c].provider == provider && db.cycles[c].lifecycle == ActiveCycle
  }

  function Share(c: nat): Allocation -> int {
    (a: Allocation) => if a.cycle == c then a.bytes else 0
  }

  function OthersShare(c: nat, p: nat): Allocation -> int {
    (a: Allocation) => if a.cycle == c && a.profile != p then a.bytes else 0
  }

  function Total(rows: seq<Allocation>, weight: Allocation -> int): int {
    if rows == [] then 0 else weight(rows[0]) + Total(rows[1..], weight)
  }

  lemma {:induction false} TotalIs(rows: seq<Allocation>, c: nat, p: nat)
    ensures Total(rows, Share(c)) == Sum(rows, AllocatedBytes(c))
    ensures Total(rows, OthersShare(c, p)) == Sum(rows, OtherAllocatedBytes(c, p))
  {
    if rows != [] {
      TotalIs(rows[1..], c, p);
      SumHead(rows, AllocatedBytes(c));
      SumHead(rows, OtherAllocatedBytes(c, p));
    }
  }

  lemma {:induction false} SumHead(rows: seq<Allocation>, f: Allocation -> int)
    requires rows != []
    ensures Sum(rows, f) == f(rows[0]) + Sum(rows[1..], f)
  {
    if |rows| > 1 {
      SumHead(rows[..|rows| - 1], f);
      assert rows[..|rows| - 1][1..] == rows[1..][..|rows| - 2];
    }
  }

  lemma RunningIsFirst(db: Db, provider: string, c: nat)
    requires KeysSound(db) && Runs(db, provider, c)
    ensures FirstActive(db.cycles, provider) == Some(c)
  {
    FirstActiveIs(db.cycles, provider, c);
  }

  lemma {:induction false} FirstActiveIs(cycles: seq<Cycle>, provider: string, c: nat)
    requires c < |cycles| && cycles[c].provider == provider && cycles[c].lifecycle == ActiveCycle
    requires forall d | 0 <= d < |cycles| && cycles[d].provider == provider && cycles[d].lifecycle == ActiveCycle :: d == c
    ensures FirstActive(cycles, provider) == Some(c)
  {
    if c < |cycles| - 1 {
      FirstActiveIs(cycles[..|cycles| - 1], provider, c);
    }
  }

  /** A profile is created exactly when its name is free and its share fits what
      the running cycle has not given away, and then with exactly that share. */
  lemma CreatedIff(db: Db, provider: string, name: string, display: string, bytes: int, c: nat)
    requires KeysSound(db) && Runs(db, provider, c)
    ensures var k := db.cycles[c];
            CreateProfile(db, provider, name, display, bytes) ==
            if bytes > 0 && (forall p | p in db.profiles :: p.name != name) &&
               Total(db.allocations, Share(c)) + k.unmanaged + bytes <= k.operational
            then (db.(profiles := db.profiles + [Profile(provider, name, display, false, Pending, false, false, 0, 0)],
                      allocations := db.allocations + [Allocation(c, |db.profiles|, bytes)]),
                  Some(|db.profiles|))
            else (db, None)
  {
    RunningIsFirst(db, provider, c);
    TotalIs(db.allocations, c, 0);
  }

  /** Without a running cycle no profile is created and no share changed. */
  lemma NoneCreated(db: Db, provider: string, name: string, display: string, bytes: int)
    requires forall c: nat :: !Runs(db, provider, c)
    ensures CreateProfile(db, provider, name, display, bytes) == (db, None)
    ensures forall p: nat, before | p < |db.profiles| && db.profiles[p].provider == provider ::
              ChangeAllocation(db, p, bytes, before) == db
  {
    var first := FirstActive(db.cycles, provider);
    if first.Some? {
      assert Runs(db, provider, first.value);
    }
  }

  predicate Carries(db: Db, p: nat) {
    exists r | r in db.reservations :: r.profile == p && r.state in {Active, RevocationRequested}
  }

  predicate OwnShare(db: Db, c: nat, p: nat, a: nat) {
    a < |db.allocations| && db.allocations[a].cycle == c && db.allocations[a].profile == p
  }

  predicate MayChange(db: Db, p: nat, bytes: int, c: nat, a: nat)
    requires p < |db.profiles| && c < |db.cycles| && a < |db.allocations|
  {
    db.profiles[p].resource && bytes >= db.profiles[p].limit &&
    (Carries(db, p) ==> bytes >= db.allocations[a].bytes) &&
    Total(db.allocations, OthersShare(c, p)) + db.cycles[c].unmanaged + bytes <= db.cycles[c].operational
  }

  lemma OwnShareIsFound(db: Db, c: nat, p: nat, a: nat)
    requires AllocationKeys(db) && OwnShare(db, c, p, a)
    ensures FindAllocation(db.allocations, c, p) == Some(a)
  {
    var found := FindAllocation(db.allocations, c, p);
    assert db.allocations[a] in db.allocations;
  }

  lemma BusyIff(db: Db, p: nat)
    ensures ProfileBusy(db, p) <==> Carries(db, p)
  {
  }

  /** A share changes exactly when the profile has been provisioned, its provider
      limit and the share it had while it carries traffic are respected, and the
      cycle has room for it; and then only that share does. */
  lemma ChangedIff(db: Db, p: nat, bytes: int, c: nat, a: nat)
    requires KeysSound(db) && AllocationKeys(db) && p < |db.profiles| && Runs(db, db.profiles[p].provider, c)
    requires OwnShare(db, c, p, a)
    ensures Apply(db, AllocationTx(p, bytes)) ==
            if MayChange(db, p, bytes, c, a)
            then db.(allocations := db.allocations[a := Allocation(c, p, bytes)])
            else db
  {
    RunningIsFirst(db, db.profiles[p].provider, c);
    OwnShareIsFound(db, c, p, a);
    TotalIs(db.allocations, c, p);
    BusyIff(db, p);
  }

  /** A profile without a share of the running cycle gets none this way. */
  lemma NoneChanged(db: Db, p: nat, bytes: int, c: nat)
    requires KeysSound(db) && p < |db.profiles| && Runs(db, db.profiles[p].provider, c)
    requires forall a: nat :: !OwnShare(db, c, p, a)
    ensures Apply(db, AllocationTx(p, bytes)) == db
  {
    RunningIsFirst(db, db.profiles[p].provider, c);
    var found := FindAllocation(db.allocations, c, p);
    if found.Some? {
      assert OwnShare(db, c, p, found.value);
    }
  }

  /** A route is added only to a profile that may be used. */
  lemma RoutedIff(db: Db, p: nat, enabled: bool)
    ensures Apply(db, AddRouteTx(p, enabled)) ==
            if p < |db.profiles| && db.profiles[p].enabled && db.profiles[p].lifecycle == Enabled
            then db.(routes := db.routes + [Route(p, enabled, false)])
            else db
  {
  }
}
