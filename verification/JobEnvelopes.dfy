/** When a job that should run has lost the envelope that would run it. */
module JobEnvelopes {
  import opened Tables
  import opened JobControl
  import opened JobProofs
  import opened JobTheorems

  function Current(s: System, id: nat): Envelope
    requires id < |s.jobs|
  {
    Envelope(id, s.jobs[id].generation)
  }

  /** In flight, no pause requested, and the source is not paused. */
  predicate Wanted(s: System, id: nat) {
    id < |s.jobs| && InFlight(s.jobs[id].state) && !s.jobs[id].pauseRequested && !SourceOf(s, s.jobs[id].source).paused
  }

  /** Nothing that can still be delivered names the job's current generation. */
  predicate Lost(s: System, id: nat) {
    Wanted(s, id) && Current(s, id) !in s.flying
  }

  predicate EnvelopeGone(s: System, id: nat) {
    id < |s.jobs| && InFlight(s.jobs[id].state) && Current(s, id) !in s.flying
  }

  /** When a delivered generation may be executed. */
  predicate Runnable(j: Job, generation: nat, source: Settings, now: int) {
    j.generation == generation && InFlight(j.state) && source.enabled && !source.paused &&
    !j.cancelRequested && !j.pauseRequested && j.scheduled <= now && !LeaseLive(j, now) &&
    (j.attempt < j.maxAttempts || j.resumeFree)
  }

  /** The steps that strand a job, read off its row, its envelope and its source
      before the step: a resume that withdraws a pause request after the envelope
      was consumed; a source update that ends a pause during which it was; and an
      acknowledgement of the current envelope of a wanted job, by a worker that
      fits none of its backends, whose start is refused, or for no reason. */
  predicate Strands(s: System, e: Event, id: nat) {
    match e
    case ResumeJob(i, _) =>
      i == id && EnvelopeGone(s, id) && s.jobs[id].pauseRequested && !SourceOf(s, s.jobs[id].source).paused
    case UpdateSource(name, enabled, paused, _) =>
      EnvelopeGone(s, id) && s.jobs[id].source == name && SourceOf(s, name).paused && !paused &&
      !s.jobs[id].pauseRequested && (enabled || s.jobs[id].state == Running)
    case Deliver(envelope, now, fit, _) =>
      id < |s.jobs| && envelope == Current(s, id) && envelope in s.flying && fit == Elsewhere &&
      Runnable(s.jobs[id], envelope.generation, SourceOf(s, s.jobs[id].source), now)
    case Launch(envelope, owner, token, now) =>
      Wanted(s, id) && envelope == Current(s, id) && envelope in s.flying &&
      !MayStart(s.jobs[id], owner, token, envelope.generation, now)
    case Acknowledge(envelope) => Wanted(s, id) && envelope == Current(s, id) && envelope in s.flying
    case _ => false
  }

  predicate NewlyLost(s: System, next: System, id: nat) {
    Lost(next, id) && !Lost(s, id)
  }

  // ---- steps that keep an envelope ------------------------------------------------

  lemma FreshEnvelopeFlies(s: System, id: nat, k: Job)
    requires OutboxSound(s) && id < |s.jobs| && k.generation > s.jobs[id].generation && !Terminal(k.state)
    ensures var next := Enqueue(SetJob(s, id, k), id);
            next.jobs == s.jobs[id := k] && Current(next, id) in next.flying && next.sources == s.sources
    ensures forall i: nat | i != id :: NewlyLost(s, Enqueue(SetJob(s, id, k), id), i) ==> false
  {
  }

  /** Rewriting one row without touching envelopes or sources; a row that leaves
      flight may take a new generation. */
  lemma RowKeepsEnvelope(s: System, id: nat, k: Job, i: nat)
    requires id < |s.jobs| && k.source == s.jobs[id].source
    requires InFlight(k.state) && !k.pauseRequested ==>
               InFlight(s.jobs[id].state) && !s.jobs[id].pauseRequested && k.generation == s.jobs[id].generation
    ensures !NewlyLost(s, SetJob(s, id, k), i)
  {
  }

  lemma OtherRowsKeep(s: System, f: Job -> Job, i: nat)
    requires forall j :: f(j).source == j.source
    requires forall j :: InFlight(f(j).state) && !f(j).pauseRequested ==>
                           InFlight(j.state) && !j.pauseRequested && f(j).generation == j.generation
    ensures !NewlyLost(s, s.(jobs := MapJobs(s.jobs, f)), i)
  {
    if i < |s.jobs| {
      assert MapJobs(s.jobs, f)[i] == f(s.jobs[i]);
    }
  }

  // ---- controls -----------------------------------------------------------------------

  lemma ResumeStrandsIff(s: System, i: nat, now: int, id: nat)
    requires JobsSound(s)
    ensures NewlyLost(s, Resumed(s, i, now), id) <==> Strands(s, ResumeJob(i, now), id)
  {
    if i < |s.jobs| && (s.jobs[i].state == Paused || s.jobs[i].pauseRequested) {
      assert RowSound(s, i);
      var k := ResumeRow(s.jobs[i], now);
      if s.jobs[i].state == Paused {
        FreshEnvelopeFlies(s, i, k);
      } else {
        assert Resumed(s, i, now) == SetJob(s, i, k);
      }
    }
  }

  lemma RetryStrandsNone(s: System, i: nat, now: int, id: nat)
    requires JobsSound(s)
    ensures !NewlyLost(s, Retried(s, i, now), id)
  {
    if i < |s.jobs| && Terminal(s.jobs[i].state) {
      FreshEnvelopeFlies(s, i, RetryRow(s.jobs[i], now));
    }
  }

  lemma StopStrandsNone(s: System, run: nat, id: nat)
    ensures !NewlyLost(s, s.(jobs := MapJobs(s.jobs, CancelRunRow(run))), id)
  {
    OtherRowsKeep(s, CancelRunRow(run), id);
  }

  lemma SourceStrandsIff(s: System, name: string, enabled: bool, paused: bool, now: int, id: nat)
    requires JobsSound(s)
    ensures NewlyLost(s, SourceUpdated(s, name, enabled, paused, now), id) <==>
            Strands(s, UpdateSource(name, enabled, paused, now), id)
  {
    var next := SourceUpdated(s, name, enabled, paused, now);
    assert |next.jobs| == |s.jobs|;
    if id < |s.jobs| {
      assert RowSound(s, id);
      assert SourceOf(next, s.jobs[id].source) ==
             if s.jobs[id].source == name then Settings(enabled, paused) else SourceOf(s, s.jobs[id].source);
      if enabled && !paused && SourceOf(s, name).paused {
        WakeStrandsIff(s, name, now, id);
      }
    }
  }

  lemma WakeStrandsIff(s: System, name: string, now: int, id: nat)
    requires JobsSound(s) && id < |s.jobs| && SourceOf(s, name).paused
    ensures NewlyLost(s, SourceUpdated(s, name, true, false, now), id) <==>
            Strands(s, UpdateSource(name, true, false, now), id)
  {
    var next := SourceUpdated(s, name, true, false, now);
    assert next.jobs[id] == WakeSourceRow(name, now)(s.jobs[id]);
    if Woken(s, name, id) {
      assert Current(next, id) in Wakeups(s, name) && Current(next, id) !in s.outbox;
    } else {
      assert Current(s, id) !in Wakeups(s, name);
      assert Current(next, id) == Current(s, id);
      assert Current(s, id) in next.flying <==> Current(s, id) in s.flying;
    }
  }

  lemma ControlStrandsIff(s: System, e: Event, id: nat)
    requires JobsSound(s) && ControlEvent(e)
    ensures NewlyLost(s, Control(s, e), id) <==> Strands(s, e, id)
  {
    match e
    case PauseJob(i) =>
      if i < |s.jobs| {
        RowKeepsEnvelope(s, i, PauseRow(s.jobs[i], false), id);
      }
    case CancelJob(i) =>
      if i < |s.jobs| {
        RowKeepsEnvelope(s, i, StopRow(s.jobs[i], Cancelled), id);
      }
    case ResumeJob(i, now) => ResumeStrandsIff(s, i, now, id);
    case RetryJob(i, now) => RetryStrandsNone(s, i, now, id);
    case CancelRun(run) => StopStrandsNone(s, run, id);
    case UpdateSource(name, enabled, paused, now) => SourceStrandsIff(s, name, enabled, paused, now, id);
  }

  // ---- workers and deliveries ------------------------------------------------------------

  lemma AcknowledgeStrandsIff(s: System, e: Envelope, id: nat)
    ensures NewlyLost(s, s.(flying := s.flying - {e}), id) <==> Strands(s, Acknowledge(e), id)
  {
  }

  lemma LaunchStrandsIff(s: System, e: Envelope, owner: nat, token: nat, now: int, id: nat)
    ensures NewlyLost(s, Launched(s, e, owner, token, now), id) <==> Strands(s, Launch(e, owner, token, now), id)
  {
    AcknowledgeStrandsIff(s, e, id);
    if e.job < |s.jobs| && MayStart(s.jobs[e.job], owner, token, e.generation, now) {
      RowKeepsEnvelope(s, e.job, StartRow(s.jobs[e.job], owner, token, e.generation, now), id);
    }
  }

  lemma AcknowledgedDelivery(s: System, e: Envelope, now: int, fit: Fit, worker: nat)
    requires e in s.flying && e.job < |s.jobs|
    ensures var j := s.jobs[e.job];
            var source := SourceOf(s, j.source);
            var (k, answer) := Reserved(j, e.generation, source.enabled, source.paused, now, fit, worker, s.issued);
            k.source == j.source &&
            (answer != Ack ==> k.generation == j.generation && (InFlight(k.state) ==> InFlight(j.state)) &&
                               k.pauseRequested == j.pauseRequested) &&
            (answer == Ack && k.generation != j.generation ==> k == j.(generation := j.generation + 1) && InFlight(j.state)) &&
            (answer == Ack && k.generation == j.generation && InFlight(k.state) && !k.pauseRequested && !source.paused &&
             e.generation == j.generation ==>
               k == j && fit == Elsewhere && Runnable(j, e.generation, source, now)) &&
            (answer == Ack && k.generation == j.generation && InFlight(k.state) ==> k == j) &&
            (fit == Elsewhere && Runnable(j, e.generation, source, now) ==> answer == Ack && k == j)
  {
  }

  lemma DeliverStrandsIff(s: System, e: Envelope, now: int, fit: Fit, worker: nat, id: nat)
    requires JobsSound(s)
    ensures NewlyLost(s, Delivered(s, e, now, fit, worker), id) <==> Strands(s, Deliver(e, now, fit, worker), id)
  {
    if e in s.flying && e.job < |s.jobs| {
      var j := s.jobs[e.job];
      var source := SourceOf(s, j.source);
      var (k, answer) := Reserved(j, e.generation, source.enabled, source.paused, now, fit, worker, s.issued);
      AcknowledgedDelivery(s, e, now, fit, worker);
      assert RowSound(s, e.job);
      if answer == Ack && k.generation != j.generation {
        RerouteFlies(s, e, k, id);
      }
    }
  }

  lemma RerouteFlies(s: System, e: Envelope, k: Job, id: nat)
    requires JobsSound(s) && e.job < |s.jobs| && k == s.jobs[e.job].(generation := s.jobs[e.job].generation + 1)
    requires InFlight(k.state) && e.generation <= s.jobs[e.job].generation
    ensures var next := Enqueue(SetJob(s, e.job, k).(issued := s.issued + 1, flying := s.flying - {e}), e.job);
            !NewlyLost(s, next, id)
  {
    assert Envelope(e.job, k.generation) !in s.outbox;
  }

  lemma RequeuedStrandsNone(s: System, i: nat, k: Job, id: nat)
    requires JobsSound(s) && i < |s.jobs| && k.generation > s.jobs[i].generation && InFlight(k.state)
    requires k.source == s.jobs[i].source
    ensures !NewlyLost(s, Enqueue(SetJob(s, i, k), i), id)
  {
    FreshEnvelopeFlies(s, i, k);
  }

  lemma ActedStrandsNone(s: System, i: nat, a: RowAction, id: nat)
    requires JobsSound(s) && i < |s.jobs|
    ensures !NewlyLost(s, SetJob(s, i, Acted(s.jobs[i], a)), id)
  {
    assert RowSound(s, i);
    ActedKeepsFlight(s.jobs[i], a, s.issued);
    RowKeepsEnvelope(s, i, Acted(s.jobs[i], a), id);
  }

  lemma ActedKeepsFlight(j: Job, a: RowAction, issued: nat)
    requires TokenSound(j, issued)
    ensures Acted(j, a).source == j.source && Acted(j, a).generation == j.generation
    ensures InFlight(Acted(j, a).state) ==> InFlight(j.state) && Acted(j, a).pauseRequested == j.pauseRequested
  {
    match a
    case Renew(_, _, _) =>
    case Release(_, _, _) =>
    case Expire(_) =>
    case Park(_) =>
    case Finish(_, _) =>
  }

  lemma AddStrandsNone(s: System, e: Event, id: nat)
    requires JobsSound(s) && e.AddJob?
    ensures !NewlyLost(s, Work(s, e), id)
  {
    assert Envelope(|s.jobs|, 1) !in s.outbox;
  }

  lemma WorkStrandsIff(s: System, e: Event, id: nat)
    requires JobsSound(s) && !ControlEvent(e)
    ensures NewlyLost(s, Work(s, e), id) <==> Strands(s, e, id)
  {
    match e
    case AddJob(_, _, _, _) => AddStrandsNone(s, e, id);
    case Deliver(envelope, now, fit, worker) => DeliverStrandsIff(s, envelope, now, fit, worker, id);
    case Launch(envelope, owner, token, now) => LaunchStrandsIff(s, envelope, owner, token, now, id);
    case OnRow(i, action) =>
      if i < |s.jobs| {
        ActedStrandsNone(s, i, action, id);
      }
    case Require(i, owner, token) =>
      if i < |s.jobs| && s.jobs[i].owner == Some(owner) && s.jobs[i].token == Some(token) {
        RequeuedStrandsNone(s, i, RequireRow(s.jobs[i], owner, token), id);
      }
    case Redrive(envelope) =>
      if Redrivable(s, envelope) {
        RequeuedStrandsNone(s, envelope.job, s.jobs[envelope.job].(generation := envelope.generation + 1), id);
      }
    case Acknowledge(envelope) => AcknowledgeStrandsIff(s, envelope, id);
    case _ =>
  }

  /** A step leaves a wanted job without an envelope for the first time exactly
      when it is one of the stranding steps. */
  lemma StrandsIff(s: System, e: Event, id: nat)
    requires JobsSound(s)
    ensures NewlyLost(s, Step(s, e), id) <==> Strands(s, e, id)
  {
    if ControlEvent(e) {
      ControlStrandsIff(s, e, id);
    } else {
      WorkStrandsIff(s, e, id);
    }
  }

  // ---- over whole runs --------------------------------------------------------------------

  predicate NeverLost(events: seq<Event>, id: nat) {
    forall i | 0 <= i <= |events| :: !Lost(Trace(EMPTY, events[..i]), id)
  }

  predicate NeverStranded(events: seq<Event>, id: nat) {
    forall i | 0 <= i < |events| :: !Strands(Trace(EMPTY, events[..i]), events[i], id)
  }

  lemma Prefix(events: seq<Event>, i: nat)
    requires i < |events|
    ensures Trace(EMPTY, events[..i + 1]) == Step(Trace(EMPTY, events[..i]), events[i])
    ensures JobsSound(Trace(EMPTY, events[..i]))
  {
    assert events[..i + 1][..i] == events[..i];
    TraceKeepsJobsSound(EMPTY, events[..i]);
  }

  lemma NotStrandedNext(events: seq<Event>, id: nat, i: nat)
    requires i < |events| && !Lost(Trace(EMPTY, events[..i]), id) && !Strands(Trace(EMPTY, events[..i]), events[i], id)
    ensures !Lost(Trace(EMPTY, events[..i + 1]), id)
  {
    Prefix(events, i);
    NotStrandedStep(Trace(EMPTY, events[..i]), events[i], id);
  }

  lemma {:induction false} NotStrandedNotLost(events: seq<Event>, id: nat, i: nat)
    requires NeverStranded(events, id) && i <= |events|
    ensures !Lost(Trace(EMPTY, events[..i]), id)
  {
    if i > 0 {
      NotStrandedNotLost(events, id, i - 1);
      NotStrandedNext(events, id, i - 1);
    } else {
      NothingIsLostAtFirst(id);
      assert events[..0] == [];
    }
  }

  lemma NothingIsLostAtFirst(id: nat)
    ensures !Lost(Trace(EMPTY, []), id)
  {
  }

  lemma NotStrandedStep(s: System, e: Event, id: nat)
    requires JobsSound(s) && !Lost(s, id) && !Strands(s, e, id)
    ensures !Lost(Step(s, e), id)
  {
    StrandsIff(s, e, id);
  }

  /** In every run a job that should run has a deliverable envelope throughout
      exactly when no step strands it. */
  lemma NeverLostIff(events: seq<Event>, id: nat)
    ensures NeverLost(events, id) <==> NeverStranded(events, id)
  {
    if NeverStranded(events, id) {
      forall i | 0 <= i <= |events| ensures !Lost(Trace(EMPTY, events[..i]), id) {
        NotStrandedNotLost(events, id, i);
      }
    }
    if NeverLost(events, id) {
      forall i | 0 <= i < |events| ensures !Strands(Trace(EMPTY, events[..i]), events[i], id) {
        Prefix(events, i);
        StrandsIff(Trace(EMPTY, events[..i]), events[i], id);
        assert !Lost(Trace(EMPTY, events[..i + 1]), id);
      }
    }
  }

  /** In a run without a stranding step every queued job of an unpaused source,
      with no pause requested, has its current envelope in flight. */
  lemma QueuedJobHasEnvelope(events: seq<Event>, id: nat)
    requires NeverStranded(events, id) && id < |Trace(EMPTY, events).jobs|
    requires var s := Trace(EMPTY, events);
             s.jobs[id].state == Queued && !s.jobs[id].pauseRequested && !SourceOf(s, s.jobs[id].source).paused
    ensures Current(Trace(EMPTY, events), id) in Trace(EMPTY, events).flying
  {
    NotStrandedNotLost(events, id, |events|);
    assert events[..|events|] == events;
  }

  lemma GoneStaysGone(s: System, e: Event, envelope: Envelope)
    requires OutboxSound(s) && envelope in s.outbox && envelope !in s.flying
    ensures envelope in Step(s, e).outbox && envelope !in Step(s, e).flying
  {
  }

  /** An envelope that was consumed never comes back, so a lost job stays lost
      until its generation changes: nothing but another control, a rerouting or a
      redrive can run it. */
  lemma {:induction false} LostUntilNewGeneration(s: System, events: seq<Event>, id: nat)
    requires JobsSound(s) && Lost(s, id)
    ensures var t := Trace(s, events);
            Current(s, id) in t.outbox && Current(s, id) !in t.flying && id < |t.jobs| &&
            (t.jobs[id].generation == s.jobs[id].generation && Wanted(t, id) ==> Lost(t, id))
  {
    TraceKeepsJobsSound(s, events);
    if events == [] {
      assert RowSound(s, id);
    } else {
      var before := events[..|events| - 1];
      LostUntilNewGeneration(s, before, id);
      TraceKeepsJobsSound(s, before);
      GoneStaysGone(Trace(s, before), events[|events| - 1], Current(s, id));
    }
  }

  // ---- one run for each way ------------------------------------------------------------------

  lemma TwoSteps(s: System, a: Event, b: Event)
    ensures Trace(s, [a, b]) == Step(Step(s, a), b)
  {
    OneMore(s, [], a);
    OneMore(s, [a], b);
    assert [] + [a] == [a] && [a] + [b] == [a, b];
  }

  lemma FourSteps(a: Event, b: Event, c: Event, d: Event)
    ensures Trace(EMPTY, [a, b, c, d]) == Step(Step(Step(Step(EMPTY, a), b), c), d)
  {
    TwoSteps(EMPTY, a, b);
    OneMore(EMPTY, [a, b], c);
    OneMore(EMPTY, [a, b, c], d);
    assert [a, b] + [c] == [a, b, c];
    assert [a, b, c] + [d] == [a, b, c, d];
  }

  function QueuedSample(): Job {
    Job("source", 0, Queued, false, false, false, false, 1, 0, 3, 0, None, None, None, false)
  }

  lemma SampleIsAdded(s: System)
    requires s.jobs == [] && s.outbox == {} && s.flying == {}
    ensures Step(s, AddJob("source", 0, 3, 0)) == s.(jobs := [QueuedSample()], outbox := {Envelope(0, 1)}, flying := {Envelope(0, 1)})
  {
  }

  /** A job created while its source is paused is delivered and acknowledged; the
      source's resume wakes paused jobs only, and leaves it queued for good. */
  lemma SourcePauseCanStrand()
    ensures Stranded(Trace(EMPTY, [UpdateSource("source", true, true, 0), AddJob("source", 0, 3, 0),
                                   Deliver(Envelope(0, 1), 1, Fits, 7), UpdateSource("source", true, false, 2)]), 0)
  {
    var pause, add := UpdateSource("source", true, true, 0), AddJob("source", 0, 3, 0);
    var deliver, resume := Deliver(Envelope(0, 1), 1, Fits, 7), UpdateSource("source", true, false, 2);
    FourSteps(pause, add, deliver, resume);
    var a := Step(EMPTY, pause);
    assert a == EMPTY.(sources := map["source" := Settings(true, true)]);
    SampleIsAdded(a);
    var held := Single(QueuedSample(), false, 1).(sources := map["source" := Settings(true, true)]);
    assert Step(Step(a, add), deliver) == held;
    assert Step(held, resume).jobs == [QueuedSample()];
  }

  /** A worker whose lease runs out before it starts the job acknowledges the
      delivery; the expiry then leaves the job queued for good. */
  lemma LateStartCanStrand()
    ensures Stranded(Trace(EMPTY, [AddJob("source", 0, 3, 0), Deliver(Envelope(0, 1), 1, Fits, 7),
                                   Launch(Envelope(0, 1), 7, 0, 1 + LEASE), OnRow(0, Expire(2 + LEASE))]), 0)
  {
    var add, deliver := AddJob("source", 0, 3, 0), Deliver(Envelope(0, 1), 1, Fits, 7);
    var launch, expire := Launch(Envelope(0, 1), 7, 0, 1 + LEASE), OnRow(0, Expire(2 + LEASE));
    FourSteps(add, deliver, launch, expire);
    SampleIsAdded(EMPTY);
    var leased := Sample(Leased, false, Some(0));
    assert Step(Step(EMPTY, add), deliver) == Single(leased, true, 1);
    assert Step(Single(leased, true, 1), launch) == Single(leased, false, 1);
    assert Step(Single(leased, false, 1), expire).jobs == [ExpireRow(leased, 2 + LEASE)];
  }

  /** So does a worker that offers none of the backends a browser job allows. */
  lemma UnfittingWorkerCanStrand()
    ensures Stranded(Trace(EMPTY, [AddJob("source", 0, 3, 0), Deliver(Envelope(0, 1), 1, Elsewhere, 7)]), 0)
  {
    var add, deliver := AddJob("source", 0, 3, 0), Deliver(Envelope(0, 1), 1, Elsewhere, 7);
    TwoSteps(EMPTY, add, deliver);
    SampleIsAdded(EMPTY);
    UnfittingDelivery(deliver);
  }

  lemma UnfittingDelivery(e: Event)
    requires e == Deliver(Envelope(0, 1), 1, Elsewhere, 7)
    ensures Step(Single(QueuedSample(), true, 0), e) == Single(QueuedSample(), false, 1)
  {
  }

  // ---- the redrive of a lost envelope -----------------------------------------------------

  /** The dispatcher's redrive brings a lost job a new envelope, under a new
      generation, exactly when its source is enabled and it is not to be cancelled. */
  lemma RedriveRescuesIff(s: System, id: nat)
    requires JobsSound(s) && Lost(s, id)
    ensures var next := Step(s, Redrive(Current(s, id)));
            var j := s.jobs[id];
            id < |next.jobs| &&
            (!Lost(next, id) <==> !j.cancelRequested && SourceOf(s, j.source).enabled) &&
            (!Lost(next, id) ==>
               next.jobs[id] == j.(generation := j.generation + 1) && Envelope(id, j.generation + 1) in next.flying) &&
            (Lost(next, id) ==> next == s)
  {
    assert RowSound(s, id);
    assert Envelope(id, s.jobs[id].generation + 1) !in s.outbox;
  }
}
