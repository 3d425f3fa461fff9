/** The import protocol as statements on the tables, the file and the locks. */
module ImportStore {
  import opened Tables
  import opened Rows
  import opened SecretFile
  import opened LedgerStore
  import Ledger
  import Import
  import ImportSystem

  class Importer {
    const store: Store
    var file: map<string, nat>
    var actors: map<nat, ImportSystem.Actor>
    var dispatched: map<nat, nat>

    function State(): ImportSystem.System
      reads this, store
    {
      ImportSystem.System(store.Contents(), file, actors, dispatched)
    }

    constructor ()
      ensures State() == ImportSystem.System(Db([], [], [], [], [], [], []), map[], map[], map[])
      ensures fresh(store)
    {
      store := new Store();
      file, actors, dispatched := map[], map[], map[];
    }

    method Quarantine(p: nat)
      requires p < |store.profiles|
      modifies store`profiles
      ensures store.Contents() == Import.Quarantine(old(store.Contents()), p)
    {
      var row := store.profiles[p];
      store.profiles := store.profiles[p := row.(enabled := false, lifecycle := Pending, pendingAction := false)];
    }

    /** Marks the profile's active reservations for revocation, one row at a time. */
    method RevokeProfile(p: nat)
      modifies store`reservations
      ensures store.Contents() == Import.RevokeProfile(old(store.Contents()), p)
    {
      ghost var before := store.Contents();
      var i := 0;
      while i < |store.reservations|
        invariant i <= |store.reservations| == |before.reservations|
        invariant store.reservations[i..] == before.reservations[i..]
        invariant forall j | 0 <= j < i :: store.reservations[j] == Import.RevokeProfile(before, p).reservations[j]
      {
        var r := store.reservations[i];
        assert r == before.reservations[i];
        if r.profile == p && r.state == Active {
          store.reservations :=
            store.reservations[i := r.(state := RevocationRequested, revocationRequested := true)];
        }
        i := i + 1;
      }
      assert store.reservations == Import.RevokeProfile(before, p).reservations;
    }

    method WriteIntent(op: nat, i: Intent)
      requires op < |store.operations|
      modifies store`operations
      ensures store.Contents() == Import.WithIntent(old(store.Contents()), op, i)
    {
      store.operations := store.operations[op := store.operations[op].(intent := Some(i))];
    }

    method Prepare(op: nat, actor: string, q: Import.ImportRequest, now: int) returns (outcome: Import.Preparation)
      modifies store`profiles, store`allocations, store`reservations, store`operations
      ensures (store.Contents(), outcome) == Import.Prepare(old(store.Contents()), op, actor, q, now)
    {
      var refusal := Import.Refuses(store.Contents(), op, actor, q, now);
      if refusal.Some? {
        return Import.Rejected(refusal.value);
      }
      var covering := Ledger.CoveringCycles(store.cycles, WEBSHARE, now);
      assert covering[0] in covering;
      var c := covering[0];
      var found := Import.FindProfile(store.profiles, WEBSHARE, q.name);
      var p: nat;
      if found.None? {
        p := |store.profiles|;
        store.profiles := store.profiles +
          [Profile(WEBSHARE, q.name, q.display.value, false, Pending, false, false, 0, 0)];
        store.allocations := store.allocations + [Allocation(c, p, q.share.value)];
      } else {
        p := found.value;
        var draining := q.expected.Some? && Ledger.ProfileBusy(store.Contents(), p);
        if draining {
          Quarantine(p);
          RevokeProfile(p);
          return Import.Drains(p);
        }
        if Import.HasLiveIntent(store.Contents(), p) {
          return Import.Rejected(Import.IntentInProgress);
        }
        if q.expected.Some? {
          Quarantine(p);
        }
      }
      WriteIntent(op, Intent(p, c, q.expected, q.target, q.expected.None?, Prepared, None));
      outcome := Import.Ready(p);
    }

    method Finalize(op: nat, now: int)
      requires Import.ValidIntent(store.Contents(), op)
      modifies store`profiles, store`operations
      ensures store.Contents() == Import.Finalize(old(store.Contents()), op, now)
    {
      var i := store.operations[op].intent.value;
      if i.state == Completed || i.state == Failed {
        return;
      }
      var c := Import.BoundCycle(store.Contents(), i, now);
      var hasShare := Ledger.FindAllocation(store.allocations, c, i.profile).Some?;
      var row := store.profiles[i.profile];
      i := i.(state := Installed, error := None, cycle := c);
      if row.generation != Import.ExpectedGeneration(i) && row.generation != i.target {
        Quarantine(i.profile);
        i := i.(state := Failed, error := Some(DatabaseConflict));
      } else if !Import.CycleSafe(store.cycles[c], now) || !hasShare {
        Quarantine(i.profile);
        i := i.(error := Some(RebindRequired));
      } else {
        store.profiles := store.profiles[i.profile :=
          row.(generation := i.target, enabled := true, lifecycle := Enabled, pendingAction := false)];
        i := i.(state := Completed);
      }
      WriteIntent(op, i);
    }

    method MarkFailed(op: nat, code: IntentError)
      requires Import.ValidIntent(store.Contents(), op)
      modifies store`profiles, store`operations
      ensures store.Contents() == Import.MarkFailed(old(store.Contents()), op, code)
    {
      var i := store.operations[op].intent.value;
      if i.state == Completed {
        return;
      }
      Quarantine(i.profile);
      if i.state != Failed {
        WriteIntent(op, i.(state := Failed, error := Some(code)));
      }
    }

    method BeginOrResume(actor: string, key: string, metadata: string) returns (answer: ImportSystem.BeginAnswer)
      modifies store`operations
      ensures (store.Contents(), answer) == ImportSystem.BeginOrResume(old(store.Contents()), actor, key, metadata)
    {
      var found := ImportSystem.FindOperation(store.operations, actor, key);
      if found.None? {
        answer := ImportSystem.Created(|store.operations|);
        store.operations := store.operations + [Operation(actor, key, metadata, Started, None)];
        return;
      }
      var row := store.operations[found.value];
      if row.state != Started {
        return ImportSystem.Replayed(found.value);
      }
      if row.metadata != metadata {
        return ImportSystem.Mismatch;
      }
      answer := ImportSystem.Resumed(found.value);
    }

    /** Takes the session lock, and either prepares an intent or falls back to recovery. */
    method StartInstall(op: nat, actor: string, q: Import.ImportRequest, now: int)
      modifies this`actors, store`profiles, store`allocations, store`reservations, store`operations
      ensures State() == ImportSystem.Step(old(State()), ImportSystem.StartInstall(op, actor, q, now))
    {
      if op in actors || Import.RequestRefusal(q).Some? {
        return;
      }
      if op < |store.operations| && store.operations[op].intent.Some? {
        if ImportSystem.Matches(store.Contents(), store.operations[op], actor, q) {
          actors := actors[op := ImportSystem.Recovering];
        }
        return;
      }
      var outcome := Prepare(op, actor, q, now);
      if outcome.Ready? {
        actors := actors[op := ImportSystem.Dispatching];
      }
    }

    method CompareAndSwap(op: nat, report: ImportSystem.SwapReport)
      modifies this`file, this`actors, this`dispatched
      ensures State() == ImportSystem.Step(old(State()), ImportSystem.CompareAndSwap(op, report))
    {
      if op !in actors || actors[op] != ImportSystem.Dispatching || op >= |store.operations| ||
         store.operations[op].intent.None? {
        return;
      }
      var i := store.operations[op].intent.value;
      var name := ImportSystem.NameOf(store.Contents(), i);
      dispatched := dispatched[op := (if op in dispatched then dispatched[op] else 0) + 1];
      var next := ImportSystem.Recovering;
      if MayInstall(file, name, i.target, i.expected) && report != ImportSystem.LostBefore {
        file := file[name := i.target];
        if report == ImportSystem.Clean {
          next := ImportSystem.Finalizing;
        }
      }
      actors := actors[op := next];
    }

    method ReadSecret(op: nat, readable: bool)
      modifies this`actors
      ensures State() == ImportSystem.Step(old(State()), ImportSystem.ReadSecret(op, readable))
    {
      if op !in actors || actors[op] != ImportSystem.Recovering {
        return;
      }
      if op >= |store.operations| || store.operations[op].intent.None? ||
         !Import.Live(store.operations[op].intent.value) || !readable {
        actors := actors - {op};
        return;
      }
      var i := store.operations[op].intent.value;
      var name := ImportSystem.NameOf(store.Contents(), i);
      var held := if name in file then Some(file[name]) else None;
      if held == Some(i.target) {
        actors := actors[op := ImportSystem.Finalizing];
      } else if i.state == Prepared && (held.None? || held == i.expected) {
        actors := actors[op := ImportSystem.Failing(ResubmissionRequired)];
      } else {
        actors := actors[op := ImportSystem.Failing(SecretConflict)];
      }
    }

    method Commit(op: nat, now: int)
      modifies this`actors, store`profiles, store`operations
      ensures State() == ImportSystem.Step(old(State()), ImportSystem.Commit(op, now))
    {
      if op !in actors || !Import.ValidIntent(store.Contents(), op) {
        return;
      }
      match actors[op] {
        case Finalizing =>
          Finalize(op, now);
          actors := actors - {op};
        case Failing(code) =>
          MarkFailed(op, code);
          actors := actors - {op};
        case _ =>
      }
    }
  }
}
