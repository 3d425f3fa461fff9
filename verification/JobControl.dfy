/** Operator controls of crawl jobs as guarded row updates, and the worker-side
    statements they race with. */
module JobControl {
  import opened Tables

  const LEASE: int := 300_000_000

  datatype JobState = Queued | Leased | Running | Paused | Succeeded | Degraded | Failed | Cancelled | Skipped

  /** `owner`, `expires` and `token` are the lease; `resumeFree` lets the next
      start keep its attempt count. */
  datatype Job = Job(
    source: string,
    run: nat,
    state: JobState,
    pauseRequested: bool,
    cancelRequested: bool,
    pausedBySource: bool,
    resumeFree: bool,
    generation: nat,
    attempt: nat,
    maxAttempts: nat,
    scheduled: int,
    owner: Option<nat>,
    expires: Option<int>,
    token: Option<nat>,
    finished: bool)

  predicate Terminal(state: JobState) {
    state == Succeeded || state == Degraded || state == Failed || state == Cancelled || state == Skipped
  }

  predicate Waiting(state: JobState) {
    state == Queued || state == Leased
  }

  predicate Held(state: JobState) {
    Waiting(state) || state == Paused
  }

  // ---- control statements on one row ----------------------------------------

  function PauseRow(j: Job, bySource: bool): Job {
    if !Waiting(j.state) && j.state != Running then j
    else
      var marked := j.(pauseRequested := j.state == Running, pausedBySource := bySource);
      if j.state == Leased
      then marked.(state := Paused, owner := None, expires := None, token := None, generation := j.generation + 1)
      else if j.state == Queued then marked.(state := Paused, generation := j.generation + 1)
      else marked
  }

  function ResumeRow(j: Job, now: int): Job {
    if j.state != Paused && !j.pauseRequested then j
    else
      var marked := j.(pauseRequested := false, resumeFree := j.state == Paused, scheduled := now, pausedBySource := false);
      if j.state == Paused then marked.(state := Queued, owner := None, token := None, generation := j.generation + 1)
      else marked
  }

  function ResumeSourceRow(j: Job, now: int): Job {
    if j.state == Paused && j.pausedBySource
    then j.(state := Queued, pauseRequested := false, pausedBySource := false, resumeFree := true, scheduled := now,
            owner := None, expires := None, token := None, generation := j.generation + 1)
    else j
  }

  /** Cancelling ends a held job at once and asks a running one to stop. */
  function StopRow(j: Job, ended: JobState): Job {
    if !Held(j.state) && j.state != Running then j
    else if Held(j.state)
    then j.(cancelRequested := true, state := ended, finished := true, owner := None, expires := None, token := None,
            generation := j.generation + 1)
    else j.(cancelRequested := true)
  }

  function RetryRow(j: Job, now: int): Job {
    if !Terminal(j.state) then j
    else j.(state := Queued, cancelRequested := false, pauseRequested := false, attempt := 0, owner := None,
            expires := None, token := None, generation := j.generation + 1, finished := false, scheduled := now)
  }

  // ---- worker statements on one row --------------------------------------------

  /** Whether a worker fits the delivered route. */
  datatype Fit = Unfit | Elsewhere | Reroute | Fits

  datatype Disposition = Ack | Again | Run

  function Ended(j: Job, state: JobState): Job {
    j.(state := state, finished := true, owner := None, expires := None, token := None)
  }

  predicate LeaseLive(j: Job, now: int) {
    (j.state == Leased || j.state == Running) && j.expires.Some? && j.expires.value > now
  }

  function Reserved(j: Job, generation: nat, enabled: bool, paused: bool, now: int, fit: Fit, owner: nat, token: nat)
    : (Job, Disposition)
  {
    if j.generation != generation || Terminal(j.state) then (j, Ack)
    else if !enabled || j.cancelRequested then (Ended(j, if !enabled then Skipped else Cancelled), Ack)
    else if paused || j.pauseRequested || j.state == Paused then (j, Ack)
    else if j.scheduled > now || LeaseLive(j, now) then (j, Again)
    else if j.attempt >= j.maxAttempts && !j.resumeFree then (Ended(j, Failed), Ack)
    else
      match fit
      case Unfit => (j, Again)
      case Elsewhere => (j, Ack)
      case Reroute => (j.(generation := j.generation + 1), Ack)
      case Fits => (j.(state := Leased, owner := Some(owner), token := Some(token), expires := Some(now + LEASE)), Run)
  }

  predicate MayStart(j: Job, owner: nat, token: nat, generation: nat, now: int) {
    j.generation == generation && j.owner == Some(owner) && j.token == Some(token) && j.state == Leased &&
    j.expires.Some? && j.expires.value > now && !j.cancelRequested && !j.pauseRequested
  }

  function StartRow(j: Job, owner: nat, token: nat, generation: nat, now: int): Job {
    if MayStart(j, owner, token, generation, now)
    then j.(state := Running, attempt := if j.resumeFree then j.attempt else j.attempt + 1, resumeFree := false,
            expires := Some(now + LEASE))
    else j
  }

  function RenewRow(j: Job, owner: nat, token: nat, now: int): Job {
    if j.owner == Some(owner) && j.token == Some(token) && (j.state == Leased || j.state == Running)
    then j.(expires := Some(now + LEASE)) else j
  }

  function ReleaseRow(j: Job, owner: nat, token: nat, until: int): Job {
    if j.owner == Some(owner) && j.token == Some(token)
    then j.(state := Queued, owner := None, expires := None, token := None, scheduled := until) else j
  }

  /** The browser fallback: back to the queue under a new generation. */
  function RequireRow(j: Job, owner: nat, token: nat): Job {
    if j.owner == Some(owner) && j.token == Some(token)
    then j.(state := Queued, resumeFree := true, owner := None, expires := None, token := None,
            generation := j.generation + 1)
    else j
  }

  function ExpireRow(j: Job, now: int): Job {
    if (j.state == Leased || j.state == Running) && j.expires.Some? && j.expires.value < now then
      if j.attempt >= j.maxAttempts && !j.resumeFree then Ended(j, Failed)
      else j.(state := Queued, owner := None, expires := None, token := None)
    else j
  }

  /** A worker that saw the pause request parks the job. */
  function ParkRow(j: Job, token: nat): Job {
    if j.token == Some(token)
    then j.(state := Paused, pauseRequested := false, owner := None, expires := None, token := None) else j
  }

  function FinishRow(j: Job, token: Option<nat>, state: JobState): Job {
    if Terminal(state) && (token.None? || j.token == token)
    then Ended(j, state).(pauseRequested := false, resumeFree := false) else j
  }

  // ---- the tables ------------------------------------------------------------------

  datatype Envelope = Envelope(job: nat, generation: nat)

  datatype Settings = Settings(enabled: bool, paused: bool)

  /** `outbox` holds every generation ever enqueued; `flying` the envelopes that
      can still be delivered; `issued` counts execution tokens. */
  datatype System = System(
    jobs: seq<Job>,
    outbox: set<Envelope>,
    flying: set<Envelope>,
    sources: map<string, Settings>,
    issued: nat)

  /** The worker statements that touch one row and no envelope. */
  datatype RowAction =
    | Renew(owner: nat, token: nat, now: int)
    | Release(owner: nat, token: nat, until: int)
    | Expire(now: int)
    | Park(token: nat)
    | Finish(fence: Option<nat>, state: JobState)

  datatype Event =
    | AddJob(source: string, run: nat, maxAttempts: nat, now: int)
    | PauseJob(id: nat)
    | ResumeJob(id: nat, now: int)
    | CancelJob(id: nat)
    | RetryJob(id: nat, now: int)
    | CancelRun(run: nat)
    | UpdateSource(source: string, enabled: bool, paused: bool, now: int)
    | Deliver(envelope: Envelope, now: int, fit: Fit, worker: nat)
    | Launch(envelope: Envelope, owner: nat, token: nat, now: int)
    | OnRow(id: nat, action: RowAction)
    | Require(id: nat, owner: nat, token: nat)
    | Redrive(envelope: Envelope)
    | Acknowledge(envelope: Envelope)

  function SourceOf(s: System, name: string): Settings {
    if name in s.sources then s.sources[name] else Settings(true, false)
  }

  function SetJob(s: System, id: nat, j: Job): System
    requires id < |s.jobs|
  {
    s.(jobs := s.jobs[id := j])
  }

  function MapJobs(jobs: seq<Job>, f: Job -> Job): seq<Job> {
    seq(|jobs|, i requires 0 <= i < |jobs| => f(jobs[i]))
  }

  /** One outbox row per generation; a second insert changes nothing. */
  function Enqueue(s: System, id: nat): System {
    if id < |s.jobs| && !Terminal(s.jobs[id].state) && Envelope(id, s.jobs[id].generation) !in s.outbox
    then s.(outbox := s.outbox + {Envelope(id, s.jobs[id].generation)},
            flying := s.flying + {Envelope(id, s.jobs[id].generation)})
    else s
  }

  /** `job_action`: the row update, and an envelope if a resume or retry left the
      job queued. An update whose guard fails is reported as a conflict. */
  function Resumed(s: System, id: nat, now: int): System {
    if id >= |s.jobs| || (s.jobs[id].state != Paused && !s.jobs[id].pauseRequested) then s
    else
      var next := SetJob(s, id, ResumeRow(s.jobs[id], now));
      if next.jobs[id].state == Queued then Enqueue(next, id) else next
  }

  function Retried(s: System, id: nat, now: int): System {
    if id >= |s.jobs| || !Terminal(s.jobs[id].state) then s
    else Enqueue(SetJob(s, id, RetryRow(s.jobs[id], now)), id)
  }

  function StopSourceRow(name: string): Job -> Job {
    (j: Job) => if j.source == name then StopRow(j, Skipped) else j
  }

  function PauseSourceRow(name: string): Job -> Job {
    (j: Job) => if j.source == name then PauseRow(j, true) else j
  }

  function WakeSourceRow(name: string, now: int): Job -> Job {
    (j: Job) => if j.source == name then ResumeSourceRow(j, now) else j
  }

  function CancelRunRow(run: nat): Job -> Job {
    (j: Job) => if j.run == run then StopRow(j, Cancelled) else j
  }

  predicate Woken(s: System, name: string, id: nat) {
    id < |s.jobs| && s.jobs[id].source == name && s.jobs[id].state == Paused && s.jobs[id].pausedBySource
  }

  /** The envelopes of the jobs that a source resume requeues. */
  function Wakeups(s: System, name: string): set<Envelope> {
    set id | 0 <= id < |s.jobs| && Woken(s, name, id) :: Envelope(id, s.jobs[id].generation + 1)
  }

  function SourceUpdated(s: System, name: string, enabled: bool, paused: bool, now: int): System {
    var saved := s.(sources := s.sources[name := Settings(enabled, paused)]);
    if !enabled then saved.(jobs := MapJobs(s.jobs, StopSourceRow(name)))
    else if paused then saved.(jobs := MapJobs(s.jobs, PauseSourceRow(name)))
    else if SourceOf(s, name).paused then
      var due := Wakeups(s, name);
      saved.(jobs := MapJobs(s.jobs, WakeSourceRow(name, now)), outbox := s.outbox + due,
             flying := s.flying + (due - s.outbox))
    else saved
  }

  function Delivered(s: System, e: Envelope, now: int, fit: Fit, worker: nat): System {
    if e !in s.flying then s
    else if e.job >= |s.jobs| then s.(flying := s.flying - {e})
    else
      var j := s.jobs[e.job];
      var source := SourceOf(s, j.source);
      var (next, answer) := Reserved(j, e.generation, source.enabled, source.paused, now, fit, worker, s.issued);
      var written := SetJob(s, e.job, next).(issued := s.issued + 1);
      match answer
      case Ack =>
        var settled := written.(flying := s.flying - {e});
        if next.generation != j.generation then Enqueue(settled, e.job) else settled
      case _ => written
  }

  /** `execute`: the worker starts the job, or acknowledges its delivery if the
      start is refused. */
  function Launched(s: System, e: Envelope, owner: nat, token: nat, now: int): System {
    if e.job < |s.jobs| && MayStart(s.jobs[e.job], owner, token, e.generation, now)
    then SetJob(s, e.job, StartRow(s.jobs[e.job], owner, token, e.generation, now))
    else s.(flying := s.flying - {e})
  }

  predicate Redrivable(s: System, e: Envelope) {
    e.job < |s.jobs| && s.jobs[e.job].generation == e.generation &&
    (Waiting(s.jobs[e.job].state) || s.jobs[e.job].state == Running) &&
    !s.jobs[e.job].cancelRequested && !s.jobs[e.job].pauseRequested &&
    SourceOf(s, s.jobs[e.job].source).enabled && !SourceOf(s, s.jobs[e.job].source).paused
  }

  function Redriven(s: System, e: Envelope): System {
    if Redrivable(s, e)
    then Enqueue(SetJob(s, e.job, s.jobs[e.job].(generation := e.generation + 1)), e.job) else s
  }

  predicate ControlEvent(e: Event) {
    e.PauseJob? || e.ResumeJob? || e.CancelJob? || e.RetryJob? || e.CancelRun? || e.UpdateSource?
  }

  function Control(s: System, e: Event): System {
    match e
    case PauseJob(id) => if id < |s.jobs| then SetJob(s, id, PauseRow(s.jobs[id], false)) else s
    case ResumeJob(id, now) => Resumed(s, id, now)
    case CancelJob(id) => if id < |s.jobs| then SetJob(s, id, StopRow(s.jobs[id], Cancelled)) else s
    case RetryJob(id, now) => Retried(s, id, now)
    case CancelRun(run) => s.(jobs := MapJobs(s.jobs, CancelRunRow(run)))
    case UpdateSource(name, enabled, paused, now) => SourceUpdated(s, name, enabled, paused, now)
    case _ => s
  }

  function Acted(j: Job, a: RowAction): Job {
    match a
    case Renew(owner, token, now) => RenewRow(j, owner, token, now)
    case Release(owner, token, until) => ReleaseRow(j, owner, token, until)
    case Expire(now) => ExpireRow(j, now)
    case Park(token) => ParkRow(j, token)
    case Finish(fence, state) => FinishRow(j, fence, state)
  }

  function Work(s: System, e: Event): System {
    match e
    case AddJob(source, run, maxAttempts, now) =>
      Enqueue(s.(jobs := s.jobs + [Job(source, run, Queued, false, false, false, false, 1, 0, maxAttempts, now,
                                       None, None, None, false)]),
              |s.jobs|)
    case Deliver(envelope, now, fit, worker) => Delivered(s, envelope, now, fit, worker)
    case Launch(envelope, owner, token, now) => Launched(s, envelope, owner, token, now)
    case Require(id, owner, token) =>
      if id < |s.jobs| && s.jobs[id].owner == Some(owner) && s.jobs[id].token == Some(token)
      then Enqueue(SetJob(s, id, RequireRow(s.jobs[id], owner, token)), id) else s
    case Redrive(envelope) => Redriven(s, envelope)
    case Acknowledge(envelope) => s.(flying := s.flying - {envelope})
    case OnRow(id, action) => if id < |s.jobs| then SetJob(s, id, Acted(s.jobs[id], action)) else s
    case _ => s
  }

  function Step(s: System, e: Event): System {
    if ControlEvent(e) then Control(s, e) else Work(s, e)
  }

  function Trace(s: System, events: seq<Event>): System {
    if events == [] then s else Step(Trace(s, events[..|events| - 1]), events[|events| - 1])
  }
}
