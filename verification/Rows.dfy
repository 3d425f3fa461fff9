/** The tables of the paid-traffic ledger and of the profile import protocol.

    Every table is a sequence that only grows, so an opaque row id is the row's
    position. A unique key becomes a lookup; a foreign key becomes a position. */
module Rows {
  import opened Tables

  /** The provider whose profiles only the import protocol writes. */
  const WEBSHARE: string := "webshare"

  datatype CycleState = ProposedCycle | ActiveCycle | ClosedCycle | RejectedCycle

  datatype Cycle = Cycle(
    provider: string,
    start: int,
    end: int,
    operational: nat,
    daily: nat,
    pilotBytes: nat,
    unmanaged: nat,
    pilotActive: bool,
    lifecycle: CycleState,
    killSwitch: bool,
    reconciliationOk: bool,
    reconciledAt: Option<int>,
    reported: nat,
    application: nat)

  datatype ProfileState = Pending | Enabled | Draining | Disabled | Retired | LocalFailed

  datatype Profile = Profile(
    provider: string,
    name: string,
    displayName: string,
    enabled: bool,
    lifecycle: ProfileState,
    pendingAction: bool,
    resource: bool,
    limit: nat,
    generation: nat)

  datatype Route = Route(profile: nat, enabled: bool, retired: bool)

  datatype Allocation = Allocation(cycle: nat, profile: nat, bytes: nat)

  datatype ReservationState = Active | RevocationRequested | Closed | Cancelled

  /** `atSettlement` is a history column: the usage booked when the reservation
      left the unsettled states. No operation reads it. */
  datatype Reservation = Reservation(
    job: Option<nat>,
    probe: Option<nat>,
    profile: nat,
    route: nat,
    cycle: nat,
    reserved: nat,
    estimated: nat,
    requests: nat,
    pilot: bool,
    generation: nat,
    state: ReservationState,
    revocationRequested: bool,
    createdAt: int,
    atSettlement: nat)

  datatype AttemptState = Authorized | Reconciled(actual: nat, requests: nat) | Released

  datatype Attempt = Attempt(reservation: nat, estimated: nat, state: AttemptState)

  /** Why an intent failed, or what an installed one is waiting for. */
  datatype IntentError = ResubmissionRequired | SecretConflict | DatabaseConflict | RebindRequired

  datatype IntentState = Prepared | Installed | Completed | Failed

  datatype Intent = Intent(
    profile: nat,
    cycle: nat,
    expected: Option<nat>,
    target: nat,
    created: bool,
    state: IntentState,
    error: Option<IntentError>)

  datatype OperationState = Started | Succeeded | FailedOperation

  /** A row of the mutation-request table together with the secret intent that
      shares its primary key, if one was written. */
  datatype Operation = Operation(
    actor: string,
    key: string,
    metadata: string,
    state: OperationState,
    intent: Option<Intent>)

  datatype Db = Db(
    cycles: seq<Cycle>,
    profiles: seq<Profile>,
    routes: seq<Route>,
    allocations: seq<Allocation>,
    reservations: seq<Reservation>,
    attempts: seq<Attempt>,
    operations: seq<Operation>)

  predicate Unsettled(r: Reservation) {
    r.state.Active? || r.state.RevocationRequested?
  }

  // ---- weights of the aggregate queries ---------------------------------

  /** `sum(reserved_bytes) filter (where state in ('active', 'revocation_requested'))` */
  function ActiveBytes(c: nat): Reservation -> int {
    (r: Reservation) => if r.cycle == c && Unsettled(r) then r.reserved else 0
  }

  function ProfileActiveBytes(c: nat, p: nat): Reservation -> int {
    (r: Reservation) => if r.cycle == c && r.profile == p && Unsettled(r) then r.reserved else 0
  }

  /** `sum(estimated_bytes)` over the settled reservations of a cycle. */
  function SettledBytes(c: nat): Reservation -> int {
    (r: Reservation) => if r.cycle == c && !Unsettled(r) then r.estimated else 0
  }

  function DayBytes(c: nat, since: int): Reservation -> int {
    (r: Reservation) => if r.cycle == c && r.createdAt >= since then r.estimated else 0
  }

  function PilotBytes(c: nat): Reservation -> int {
    (r: Reservation) => if r.cycle == c && r.pilot then r.estimated else 0
  }

  function AllocatedBytes(c: nat): Allocation -> int {
    (a: Allocation) => if a.cycle == c then a.bytes else 0
  }

  function OtherAllocatedBytes(c: nat, p: nat): Allocation -> int {
    (a: Allocation) => if a.cycle == c && a.profile != p then a.bytes else 0
  }

  function PendingBytes(id: nat): Attempt -> int {
    (a: Attempt) => if a.reservation == id && a.state.Authorized? then a.estimated else 0
  }

  function PendingRequests(id: nat): Attempt -> int {
    (a: Attempt) => if a.reservation == id && a.state.Authorized? then 1 else 0
  }
}
