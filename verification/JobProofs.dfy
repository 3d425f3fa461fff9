/** What job control keeps over every run of controls, deliveries and workers. */
module JobProofs {
  import opened Tables
  import opened JobControl

  predicate InFlight(state: JobState) {
    Waiting(state) || state == Running
  }

  /** Only a lease carries a token, and tokens are issued once. */
  predicate TokenSound(j: Job, issued: nat) {
    j.token.Some? ==> (j.state == Leased || j.state == Running) && j.token.value < issued
  }

  predicate RowSound(s: System, id: nat)
    requires id < |s.jobs|
  {
    TokenSound(s.jobs[id], s.issued) &&
    (InFlight(s.jobs[id].state) ==> Envelope(id, s.jobs[id].generation) in s.outbox)
  }

  predicate OutboxSound(s: System) {
    s.flying <= s.outbox &&
    forall e | e in s.outbox :: e.job < |s.jobs| && e.generation <= s.jobs[e.job].generation
  }

  predicate JobsSound(s: System) {
    OutboxSound(s) && forall id | 0 <= id < |s.jobs| :: RowSound(s, id)
  }

  /** How one row may change in one step. */
  predicate RowStep(j: Job, k: Job, issued: nat) {
    k.source == j.source && k.run == j.run && j.generation <= k.generation &&
    (k.token.Some? ==> (k.state == Leased || k.state == Running) && (k.token == j.token || k.token == Some(issued))) &&
    (InFlight(k.state) && k.generation == j.generation ==> InFlight(j.state)) &&
    (Terminal(j.state) && !Terminal(k.state) ==> k.generation > j.generation)
  }

  /** A row that gives its lease back without a new generation. */
  lemma RestedMoves(j: Job, k: Job, issued: nat)
    requires k.source == j.source && k.run == j.run && k.generation == j.generation && k.token.None?
    requires (InFlight(k.state) ==> InFlight(j.state)) && (Terminal(j.state) ==> Terminal(k.state))
    ensures RowStep(j, k, issued)
  {
  }

  lemma ActedMoves(j: Job, a: RowAction, issued: nat)
    requires TokenSound(j, issued)
    ensures RowStep(j, Acted(j, a), issued) && Acted(j, a).generation == j.generation
  {
    var k := Acted(j, a);
    if k != j && !a.Renew? {
      assert a.Finish? || j.state == Leased || j.state == Running;
      RestedMoves(j, k, issued);
    } else {
      assert k.state == j.state && k.token == j.token;
    }
  }

  lemma PauseRowMoves(j: Job, bySource: bool, issued: nat)
    requires TokenSound(j, issued)
    ensures RowStep(j, PauseRow(j, bySource), issued) && !(InFlight(PauseRow(j, bySource).state) &&
            PauseRow(j, bySource).generation != j.generation)
  {
  }

  lemma StopRowMoves(j: Job, ended: JobState, issued: nat)
    requires TokenSound(j, issued) && Terminal(ended)
    ensures RowStep(j, StopRow(j, ended), issued) && !(InFlight(StopRow(j, ended).state) &&
            StopRow(j, ended).generation != j.generation)
  {
    if Held(j.state) {
      assert !InFlight(ended) && !Terminal(j.state);
    } else {
      assert StopRow(j, ended) == j.(cancelRequested := StopRow(j, ended).cancelRequested);
    }
  }

  lemma RequeueRowsMove(j: Job, now: int, issued: nat)
    requires TokenSound(j, issued)
    ensures RowStep(j, ResumeRow(j, now), issued) && RowStep(j, ResumeSourceRow(j, now), issued)
    ensures RowStep(j, RetryRow(j, now), issued)
  {
  }

  /** A step that changes rows and enqueues what it puts back in flight. */
  predicate Moves(s: System, next: System) {
    |s.jobs| == |next.jobs| && s.issued <= next.issued <= s.issued + 1 &&
    s.outbox <= next.outbox && next.flying <= next.outbox &&
    (forall id | 0 <= id < |s.jobs| ::
       RowStep(s.jobs[id], next.jobs[id], s.issued) &&
       (next.jobs[id].token == Some(s.issued) ==> next.issued == s.issued + 1) &&
       (InFlight(next.jobs[id].state) && next.jobs[id].generation != s.jobs[id].generation ==>
          Envelope(id, next.jobs[id].generation) in next.outbox)) &&
    (forall e | e in next.outbox && e !in s.outbox ::
       e.job < |next.jobs| && e.generation == next.jobs[e.job].generation)
  }

  lemma MovesKeepSound(s: System, next: System)
    requires JobsSound(s) && Moves(s, next)
    ensures JobsSound(next)
  {
    forall id | 0 <= id < |next.jobs| ensures RowSound(next, id) {
      assert RowSound(s, id) && RowStep(s.jobs[id], next.jobs[id], s.issued);
    }
    forall e | e in next.outbox ensures e.job < |next.jobs| && e.generation <= next.jobs[e.job].generation {
      assert e in s.outbox ==> RowStep(s.jobs[e.job], next.jobs[e.job], s.issued);
    }
  }

  lemma SameRowMoves(j: Job, issued: nat)
    requires TokenSound(j, issued)
    ensures RowStep(j, j, issued)
  {
  }

  lemma OtherRowsStay(s: System)
    requires JobsSound(s)
    ensures forall id | 0 <= id < |s.jobs| :: RowStep(s.jobs[id], s.jobs[id], s.issued) && s.jobs[id].token != Some(s.issued)
  {
    forall id | 0 <= id < |s.jobs|
      ensures RowStep(s.jobs[id], s.jobs[id], s.issued) && s.jobs[id].token != Some(s.issued)
    {
      assert RowSound(s, id);
      SameRowMoves(s.jobs[id], s.issued);
    }
  }

  /** One row changes without entering flight under a new generation. */
  lemma OneRowMoves(s: System, id: nat, k: Job)
    requires JobsSound(s) && id < |s.jobs| && RowStep(s.jobs[id], k, s.issued) && k.token != Some(s.issued)
    requires InFlight(k.state) ==> k.generation == s.jobs[id].generation
    ensures Moves(s, SetJob(s, id, k))
  {
    OtherRowsStay(s);
  }

  /** One row changes and its generation, if new, is enqueued. */
  lemma EnqueuedRowMoves(s: System, id: nat, k: Job)
    requires JobsSound(s) && id < |s.jobs| && RowStep(s.jobs[id], k, s.issued) && k.token != Some(s.issued)
    ensures Moves(s, Enqueue(SetJob(s, id, k), id))
  {
    OtherRowsStay(s);
  }

  lemma MappedRowsMove(s: System, f: Job -> Job, name: string, now: int)
    requires JobsSound(s)
    requires f == StopSourceRow(name) || f == PauseSourceRow(name)
    ensures Moves(s, s.(jobs := MapJobs(s.jobs, f)))
  {
    forall id | 0 <= id < |s.jobs|
      ensures RowStep(s.jobs[id], f(s.jobs[id]), s.issued) && f(s.jobs[id]).token != Some(s.issued)
      ensures InFlight(f(s.jobs[id]).state) ==> f(s.jobs[id]).generation == s.jobs[id].generation
    {
      assert RowSound(s, id);
      StopRowMoves(s.jobs[id], Skipped, s.issued);
      PauseRowMoves(s.jobs[id], true, s.issued);
      SameRowMoves(s.jobs[id], s.issued);
    }
  }

  lemma CancelRunMoves(s: System, run: nat)
    requires JobsSound(s)
    ensures Moves(s, s.(jobs := MapJobs(s.jobs, CancelRunRow(run))))
  {
    forall id | 0 <= id < |s.jobs|
      ensures RowStep(s.jobs[id], CancelRunRow(run)(s.jobs[id]), s.issued)
      ensures CancelRunRow(run)(s.jobs[id]).token != Some(s.issued)
    {
      assert RowSound(s, id);
      StopRowMoves(s.jobs[id], Cancelled, s.issued);
      SameRowMoves(s.jobs[id], s.issued);
    }
  }

  lemma WakeMoves(s: System, name: string, now: int)
    requires JobsSound(s)
    ensures var due := Wakeups(s, name);
            Moves(s, s.(jobs := MapJobs(s.jobs, WakeSourceRow(name, now)), outbox := s.outbox + due,
                        flying := s.flying + (due - s.outbox)))
  {
    forall id | 0 <= id < |s.jobs|
      ensures RowStep(s.jobs[id], WakeSourceRow(name, now)(s.jobs[id]), s.issued)
      ensures WakeSourceRow(name, now)(s.jobs[id]).token != Some(s.issued)
      ensures WakeSourceRow(name, now)(s.jobs[id]).generation != s.jobs[id].generation ==> Woken(s, name, id)
    {
      assert RowSound(s, id);
      RequeueRowsMove(s.jobs[id], now, s.issued);
      SameRowMoves(s.jobs[id], s.issued);
    }
  }

  lemma SourceMoves(s: System, name: string, enabled: bool, paused: bool, now: int)
    requires JobsSound(s)
    ensures Moves(s, SourceUpdated(s, name, enabled, paused, now))
  {
    if !enabled {
      MappedRowsMove(s, StopSourceRow(name), name, now);
    } else if paused {
      MappedRowsMove(s, PauseSourceRow(name), name, now);
    } else if SourceOf(s, name).paused {
      WakeMoves(s, name, now);
    } else {
      QuietMoves(s, s.(sources := s.sources[name := Settings(enabled, paused)]));
    }
  }

  lemma QuietMoves(s: System, next: System)
    requires JobsSound(s) && next == s.(sources := next.sources, flying := next.flying) && next.flying <= s.flying
    ensures Moves(s, next)
  {
    assert next.jobs == s.jobs;
    OtherRowsStay(s);
  }

  lemma ControlMoves(s: System, e: Event)
    requires JobsSound(s) && ControlEvent(e)
    ensures Moves(s, Control(s, e))
  {
    QuietMoves(s, s);
    match e
    case PauseJob(id) =>
      if id < |s.jobs| {
        assert RowSound(s, id);
        PauseRowMoves(s.jobs[id], false, s.issued);
        OneRowMoves(s, id, PauseRow(s.jobs[id], false));
      }
    case CancelJob(id) =>
      if id < |s.jobs| {
        assert RowSound(s, id);
        StopRowMoves(s.jobs[id], Cancelled, s.issued);
        OneRowMoves(s, id, StopRow(s.jobs[id], Cancelled));
      }
    case ResumeJob(id, now) => ResumeMoves(s, id, now);
    case RetryJob(id, now) => RetryMoves(s, id, now);
    case CancelRun(run) => CancelRunMoves(s, run);
    case UpdateSource(name, enabled, paused, now) => SourceMoves(s, name, enabled, paused, now);
  }

  lemma ResumeMoves(s: System, id: nat, now: int)
    requires JobsSound(s)
    ensures Moves(s, Resumed(s, id, now))
  {
    QuietMoves(s, s);
    if id < |s.jobs| {
      assert RowSound(s, id);
      RequeueRowsMove(s.jobs[id], now, s.issued);
      if ResumeRow(s.jobs[id], now).state == Queued {
        EnqueuedRowMoves(s, id, ResumeRow(s.jobs[id], now));
      } else {
        OneRowMoves(s, id, ResumeRow(s.jobs[id], now));
      }
    }
  }

  lemma RetryMoves(s: System, id: nat, now: int)
    requires JobsSound(s)
    ensures Moves(s, Retried(s, id, now))
  {
    QuietMoves(s, s);
    if id < |s.jobs| {
      assert RowSound(s, id);
      RequeueRowsMove(s.jobs[id], now, s.issued);
      EnqueuedRowMoves(s, id, RetryRow(s.jobs[id], now));
    }
  }

  lemma ReservedMoves(j: Job, generation: nat, enabled: bool, paused: bool, now: int, fit: Fit, owner: nat, issued: nat)
    requires TokenSound(j, issued)
    ensures RowStep(j, Reserved(j, generation, enabled, paused, now, fit, owner, issued).0, issued)
    ensures Reserved(j, generation, enabled, paused, now, fit, owner, issued).1 != Ack ==>
              Reserved(j, generation, enabled, paused, now, fit, owner, issued).0.generation == j.generation
  {
  }

  lemma DeliverMoves(s: System, e: Envelope, now: int, fit: Fit, worker: nat)
    requires JobsSound(s)
    ensures Moves(s, Delivered(s, e, now, fit, worker))
  {
    QuietMoves(s, s);
    QuietMoves(s, s.(flying := s.flying - {e}));
    if e in s.flying && e.job < |s.jobs| {
      var j := s.jobs[e.job];
      assert RowSound(s, e.job);
      var source := SourceOf(s, j.source);
      ReservedMoves(j, e.generation, source.enabled, source.paused, now, fit, worker, s.issued);
      var next := Delivered(s, e, now, fit, worker);
      var k := Reserved(j, e.generation, source.enabled, source.paused, now, fit, worker, s.issued).0;
      assert next.jobs == s.jobs[e.job := k];
      OtherRowsStay(s);
    }
  }

  lemma ActionMoves(s: System, id: nat, a: RowAction)
    requires JobsSound(s) && id < |s.jobs|
    ensures Moves(s, SetJob(s, id, Acted(s.jobs[id], a)))
  {
    assert RowSound(s, id);
    ActedMoves(s.jobs[id], a, s.issued);
    OneRowMoves(s, id, Acted(s.jobs[id], a));
  }

  lemma LaunchMoves(s: System, e: Envelope, owner: nat, token: nat, now: int)
    requires JobsSound(s)
    ensures Moves(s, Launched(s, e, owner, token, now))
  {
    QuietMoves(s, s.(flying := s.flying - {e}));
    if e.job < |s.jobs| && MayStart(s.jobs[e.job], owner, token, e.generation, now) {
      assert RowSound(s, e.job);
      OneRowMoves(s, e.job, StartRow(s.jobs[e.job], owner, token, e.generation, now));
    }
  }

  lemma RequireMoves(s: System, id: nat, owner: nat, token: nat)
    requires JobsSound(s)
    ensures Moves(s, Work(s, Require(id, owner, token)))
  {
    QuietMoves(s, s);
    if id < |s.jobs| {
      assert RowSound(s, id);
      EnqueuedRowMoves(s, id, RequireRow(s.jobs[id], owner, token));
    }
  }

  lemma RedriveMoves(s: System, e: Envelope)
    requires JobsSound(s)
    ensures Moves(s, Redriven(s, e))
  {
    QuietMoves(s, s);
    if Redrivable(s, e) {
      assert RowSound(s, e.job);
      EnqueuedRowMoves(s, e.job, s.jobs[e.job].(generation := e.generation + 1));
    }
  }

  lemma WorkMoves(s: System, e: Event)
    requires JobsSound(s) && !ControlEvent(e) && !e.AddJob?
    ensures Moves(s, Work(s, e))
  {
    QuietMoves(s, s);
    match e
    case Deliver(envelope, now, fit, worker) => DeliverMoves(s, envelope, now, fit, worker);
    case Launch(envelope, owner, token, now) => LaunchMoves(s, envelope, owner, token, now);
    case Require(id, owner, token) => RequireMoves(s, id, owner, token);
    case Redrive(envelope) => RedriveMoves(s, envelope);
    case Acknowledge(envelope) => QuietMoves(s, s.(flying := s.flying - {envelope}));
    case OnRow(id, action) =>
      if id < |s.jobs| {
        ActionMoves(s, id, action);
      }
  }

  lemma AddKeepsSound(s: System, e: Event)
    requires JobsSound(s) && e.AddJob?
    ensures JobsSound(Work(s, e)) && Work(s, e).jobs[..|s.jobs|] == s.jobs && Work(s, e).issued == s.issued
  {
    var next := Work(s, e);
    forall id | 0 <= id < |next.jobs| ensures RowSound(next, id) {
      assert id < |s.jobs| ==> RowSound(s, id);
    }
  }

  /** How the first rows evolve, however many are added behind them. */
  predicate Evolves(s: System, next: System) {
    |s.jobs| <= |next.jobs| && s.issued <= next.issued &&
    (forall id | 0 <= id < |s.jobs| :: RowStep(s.jobs[id], next.jobs[id], s.issued))
  }

  lemma StepKeepsJobsSound(s: System, e: Event)
    requires JobsSound(s)
    ensures JobsSound(Step(s, e)) && Evolves(s, Step(s, e))
  {
    if ControlEvent(e) {
      ControlMoves(s, e);
      MovesKeepSound(s, Step(s, e));
    } else if e.AddJob? {
      AddKeepsSound(s, e);
      AddEvolves(s, e);
    } else {
      WorkMoves(s, e);
      MovesKeepSound(s, Step(s, e));
    }
  }

  lemma AddEvolves(s: System, e: Event)
    requires JobsSound(s) && e.AddJob?
    ensures Evolves(s, Work(s, e))
  {
    forall id | 0 <= id < |s.jobs| ensures RowStep(s.jobs[id], Work(s, e).jobs[id], s.issued) {
      assert RowSound(s, id);
      SameRowMoves(s.jobs[id], s.issued);
    }
  }

  lemma {:induction false} TraceKeepsJobsSound(s: System, events: seq<Event>)
    requires JobsSound(s)
    ensures JobsSound(Trace(s, events)) && |s.jobs| <= |Trace(s, events).jobs| && s.issued <= Trace(s, events).issued
    ensures forall id | 0 <= id < |s.jobs| :: s.jobs[id].generation <= Trace(s, events).jobs[id].generation
  {
    if events != [] {
      TraceKeepsJobsSound(s, events[..|events| - 1]);
      StepKeepsJobsSound(Trace(s, events[..|events| - 1]), events[|events| - 1]);
    }
  }
}
